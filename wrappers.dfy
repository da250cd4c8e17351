/** The Option type used for Rust's `Option` and for every partial lookup of the model. */
module Wrappers {

  datatype Option<+T> = None | Some(value: T)
}

/** Facts about cutting a sequence, kept apart from the functions that fold over it. */
module Seqs {

  lemma TakeDrop<T>(s: seq<T>, n: nat)
    requires n <= |s|
    ensures s[..n] + s[n..] == s
  {
  }

  lemma TakeSnoc<T>(s: seq<T>, n: nat)
    requires n < |s|
    ensures s[..n + 1] == s[..n] + [s[n]]
  {
  }
}
