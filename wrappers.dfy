/** Option, usable with `:-`: `None` stands for a Python exception raised on the way. */
module Wrappers {

  datatype Option<+T> = None | Some(value: T) {

    predicate IsFailure() {
      None?
    }

    function PropagateFailure<U>(): Option<U>
      requires None?
    {
      None
    }

    function Extract(): T
      requires Some?
    {
      value
    }

    function GetOr(default: T): T {
      if Some? then value else default
    }
  }

  /** Collects the values of a sequence of options, failing if any element failed. */
  function AllSome<T>(opts: seq<Option<T>>): Option<seq<T>>
    decreases |opts|
  {
    if opts == [] then Some([])
    else
      var init :- AllSome(opts[..|opts| - 1]);
      var last :- opts[|opts| - 1];
      Some(init + [last])
  }

  lemma {:induction false} AllSomeSpec<T>(opts: seq<Option<T>>)
    ensures AllSome(opts).None? <==> exists i :: 0 <= i < |opts| && opts[i].None?
    ensures AllSome(opts).Some? ==>
              |AllSome(opts).value| == |opts| &&
              forall i :: 0 <= i < |opts| ==> opts[i] == Some(AllSome(opts).value[i])
    decreases |opts|
  {
    if opts != [] {
      var init := opts[..|opts| - 1];
      AllSomeSpec(init);
      assert forall i :: 0 <= i < |init| ==> init[i] == opts[i];
    }
  }
}
