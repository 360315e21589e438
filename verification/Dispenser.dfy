/** The dispenser's test whether a requested service is on offer today. */
module Dispenser {

  /** servizio_disponibile, over the array read from the pipe. */
  method ServiceAvailable(enabled: array<int>, service: int) returns (found: bool)
    ensures found <==> service in enabled[..]
  {
    for i := 0 to enabled.Length
      invariant service !in enabled[..i]
    {
      if enabled[i] == service {
        return true;
      }
    }
    return false;
  }
}
