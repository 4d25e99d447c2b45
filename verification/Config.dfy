/** The settings that decide when a claimed job may still be sent. */
module Config {
  datatype Settings = Settings(
    leaseSeconds: int,
    sendTimeout: nat,
    poolTimeout: nat,
    safetyMargin: nat,
    defaultCallbackUrl: string)
  {
    // Lease time that must remain before a send may start.
    function SendBudget(): nat { sendTimeout + poolTimeout + safetyMargin }
  }

  datatype Validated = Valid(settings: Settings) | Invalid

  function Validate(s: Settings): Validated {
    if s.SendBudget() >= s.leaseSeconds then Invalid else Valid(s)
  }
}
