/**
 * The command-line options and vectorizer parameters the legality analysis
 * reads, gathered into one immutable configuration record.
 */
module Config {

  datatype Config = Config(
    enableIfConversion: bool,           // -enable-if-conversion
    pragmaMemoryCheckThreshold: nat,    // -pragma-vectorize-memory-check-threshold
    scevCheckThreshold: nat,            // -vectorize-scev-check-threshold
    pragmaScevCheckThreshold: nat,      // -pragma-vectorize-scev-check-threshold
    runtimeMemoryCheckThreshold: nat,   // VectorizerParams::RuntimeMemoryCheckThreshold
    maxVectorWidth: nat,                // VectorizerParams::MaxVectorWidth
    vectorizationFactor: nat,           // VectorizerParams::VectorizationFactor
    interleaveForced: bool,             // VectorizerParams::isInterleaveForced()
    vectorizationInterleave: nat,       // VectorizerParams::VectorizationInterleave
    enableVPlanPredication: bool,       // -enable-vplan-predication
    doExtraAnalysis: bool,              // ORE->allowExtraAnalysis("loop-vectorize")
    ptrBits: nat)                       // width of DataLayout's pointer-sized integer

  /** Maximum vectorization interleave count (a constant of the source file). */
  const MaxInterleaveFactor: nat := 16

  /** The option defaults written in LoopVectorizationLegality.cpp itself. */
  predicate HasFileDefaults(c: Config)
  {
    && c.enableIfConversion
    && c.pragmaMemoryCheckThreshold == 128
    && c.scevCheckThreshold == 16
    && c.pragmaScevCheckThreshold == 128
  }
}
