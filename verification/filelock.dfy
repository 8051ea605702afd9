/** filelock.py: the poll-and-sleep loop that bounds how long a caller waits for the ledger's lock. */
module FileLock {

  const POLL := 0.05

  /** How many attempts a timeout allows: at least one, then one more for every started 0.05 seconds. */
  function Budget(timeout: real): (n: nat)
    ensures n >= 1
    ensures timeout - POLL * n as real <= 0.0
    ensures n > 1 ==> timeout - POLL * (n - 1) as real > 0.0
  {
    var steps := -((-(timeout * 20.0)).Floor);
    var n := if steps < 1 then 1 else steps;
    n
  }

  /** `free(k)` says whether the k-th non-blocking attempt finds the lock free. The lock is taken at the
      first free attempt within the budget, and the call times out after exactly the budget otherwise. */
  method ExclusiveLock(free: nat -> bool, timeout: real) returns (acquired: bool, attempts: nat)
    ensures 1 <= attempts <= Budget(timeout)
    ensures forall k :: 0 <= k < attempts - 1 ==> !free(k)
    ensures acquired <==> free(attempts - 1)
    ensures !acquired ==> attempts == Budget(timeout)
  {
    var deadline := timeout;
    attempts := 0;
    while true
      invariant attempts < Budget(timeout)
      invariant deadline == timeout - POLL * attempts as real
      invariant forall k :: 0 <= k < attempts ==> !free(k)
      decreases Budget(timeout) - attempts
    {
      attempts := attempts + 1;
      if free(attempts - 1) {
        return true, attempts;
      }
      deadline := deadline - POLL;
      if deadline <= 0.0 {
        return false, attempts;
      }
    }
  }
}
