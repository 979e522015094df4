/** The character heuristic that stands in for a tokenizer. */
module TokenEstimate {
  /** One token for every four bytes, at least one for text that is not empty. */
  function Tokens(s: string): nat {
    if s == "" then 0 else if |s| / 4 == 0 then 1 else |s| / 4
  }
}
