/**
 * Weakness classification identifiers used by the detectors: the numbers of
 * the SWC registry that each detector reports under.
 */
module SwcData {
  const IntegerOverflowAndUnderflow := "101"
  const UncheckedRetVal := "104"
  const UnprotectedEtherWithdrawal := "105"
  const UnprotectedSelfdestruct := "106"
  const Reentrancy := "107"
  const AssertViolation := "110"
  const DeprecatedFunctionsUsage := "111"
  const DelegatecallToUntrustedContract := "112"
  const MultipleSends := "113"
  const TimestampDependence := "116"
  const WeakRandomness := "120"
}
