/** Optional values and the blank-text test the console flows apply to every input. */
module Comum {

  datatype Option<+T> = None | Some(value: T)

  /** The characters .NET's `char.IsWhiteSpace` accepts in the Latin-1 range. */
  predicate EspacoEmBranco(c: char)
  {
    c == ' ' || c == '\t' || c == '\n' || c == '\r' || c == '\U{0B}' || c == '\U{0C}'
    || c == '\U{85}' || c == '\U{A0}'
  }

  /** `string.IsNullOrWhiteSpace`; a missing console line is read as "". */
  predicate EmBranco(s: string)
  {
    forall i :: 0 <= i < |s| ==> EspacoEmBranco(s[i])
  }
}
