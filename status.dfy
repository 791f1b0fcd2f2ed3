/** The `STATUS` enum of lib/status.js: the three states of a deferred object. */
module StatusEnum {

  datatype Status = Pending | Resolved | Rejected
}
