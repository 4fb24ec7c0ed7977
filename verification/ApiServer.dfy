/** What all controllers share about calls to an API server. */
module ApiServer {

  datatype Key = Key(namespace: string, name: string)

  /** Whether a call fails; when the servers are `calm` it does not. */
  method Fails(calm: bool) returns (failed: bool)
    ensures calm ==> !failed
  {
    failed := *;
    failed := failed && !calm;
  }
}
