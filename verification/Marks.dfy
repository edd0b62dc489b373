/** The packet marks the helper, the daemon and the Xray configuration agree on. */
module Marks {

  /** System DNS, to be carried by the tunnel. */
  const DNS_MARK: nat := 0x2023

  /** Xray's own dials. */
  const XRAY_DIAL_MARK: nat := 0x2024

  /** Applications kept out of the tunnel. */
  const BYPASS_MARK: nat := 0x2025
}
