/** The reasoning agent's thoughts inside `run`: turning each raw thought into the form
    sent to the validation agent (run.py:136-143), and choosing the best thought from the
    validation agent's advisory index (run.py:161-171). */
module Thoughts {
  import opened Results
  import opened PyValues
  import opened Errors

  /** One raw thought as sent to validation: a dict with a `content` entry gives that entry,
      a string gives itself, anything else its `str()` text. */
  function NormalizeThought(t: Value, toStr: Value -> string): (r: Value)
    ensures t.Dict? && HasKey(t.entries, "content") ==> r == Lookup(t.entries, "content").value
    ensures t.Str? ==> r == t
    ensures !t.Str? && !(t.Dict? && HasKey(t.entries, "content")) ==> r == Str(toStr(t))
  {
    match t
    case Dict(entries) =>
      (match Lookup(entries, "content")
       case Some(content) => content
       case None => Str(toStr(t)))
    case Str(_) => t
    case _ => Str(toStr(t))
  }

  /** `NormalizeThought` applied to every thought, in order. */
  function NormalizeAll(thoughts: seq<Value>, toStr: Value -> string): (clean: seq<Value>)
    ensures |clean| == |thoughts|
    ensures forall i :: 0 <= i < |thoughts| ==> clean[i] == NormalizeThought(thoughts[i], toStr)
  {
    if thoughts == [] then []
    else NormalizeAll(thoughts[..|thoughts| - 1], toStr) + [NormalizeThought(thoughts[|thoughts| - 1], toStr)]
  }

  /** The loop building `clean_thoughts` (run.py:136-143). */
  method CleanThoughts(thoughts: seq<Value>, toStr: Value -> string) returns (clean: seq<Value>)
    ensures clean == NormalizeAll(thoughts, toStr)
  {
    clean := [];
    for i := 0 to |thoughts|
      invariant clean == NormalizeAll(thoughts[..i], toStr)
    {
      assert thoughts[..i + 1][..i] == thoughts[..i];
      clean := clean + [NormalizeThought(thoughts[i], toStr)];
    }
    assert thoughts[..|thoughts|] == thoughts;
  }

  /** Normalisation keeps the thoughts index-aligned: the i-th thought sent to validation is
      the `content` of the i-th raw thought when that is a dict carrying one, the raw thought
      itself when it is a string, and its `str()` text otherwise. */
  lemma NormalizedThoughtAt(thoughts: seq<Value>, toStr: Value -> string, i: nat)
    requires i < |thoughts|
    ensures |NormalizeAll(thoughts, toStr)| == |thoughts|
    ensures thoughts[i].Dict? && HasKey(thoughts[i].entries, "content") ==>
              NormalizeAll(thoughts, toStr)[i] == Lookup(thoughts[i].entries, "content").value
    ensures thoughts[i].Str? ==> NormalizeAll(thoughts, toStr)[i] == thoughts[i]
    ensures !thoughts[i].Str? && !(thoughts[i].Dict? && HasKey(thoughts[i].entries, "content")) ==>
              NormalizeAll(thoughts, toStr)[i] == Str(toStr(thoughts[i]))
  {
  }

  /** Normalisation commutes with concatenation, so it can be done one thought at a time. */
  lemma {:induction false} NormalizeAllAppend(a: seq<Value>, b: seq<Value>, toStr: Value -> string)
    ensures NormalizeAll(a + b, toStr) == NormalizeAll(a, toStr) + NormalizeAll(b, toStr)
  {
    var l, r := NormalizeAll(a + b, toStr), NormalizeAll(a, toStr) + NormalizeAll(b, toStr);
    assert |l| == |r|;
    forall i | 0 <= i < |l| ensures l[i] == r[i] {
      if i < |a| {
        assert (a + b)[i] == a[i];
      } else {
        assert (a + b)[i] == b[i - |a|];
      }
    }
  }

  /** The selection policy for the best thought: the thought the index names when it is in
      range, the first thought when it is not, and the empty string when there are no
      thoughts. A bool counts as the integer 0 or 1. A float is compared as a number, so out
      of range it falls back to the first thought, but in range it is no valid index and
      fails. Any other index cannot be compared with 0 and fails. With no thoughts the index
      is never looked at. */
  function SelectBest(thoughts: seq<Value>, index: Value): (r: Result<Value, Failure>)
    ensures thoughts == [] ==> r == Ok(Str(""))
    ensures thoughts != [] && AsInt(index).Some? && 0 <= AsInt(index).value < |thoughts|
            ==> r == Ok(thoughts[AsInt(index).value])
    ensures thoughts != [] && Numeric(index).Some? && !(0.0 <= Numeric(index).value < |thoughts| as real)
            ==> r == Ok(thoughts[0])
    ensures thoughts != [] && index.Float? && 0.0 <= index.x < |thoughts| as real ==> r == Err(WrongShape(IndexOp))
    ensures thoughts != [] && Numeric(index).None? ==> r == Err(WrongShape(CompareOp))
  {
    if thoughts == [] then Ok(Str(""))
    else match Numeric(index)
      case None => Err(WrongShape(CompareOp))
      case Some(x) =>
        if !(0.0 <= x < |thoughts| as real) then Ok(thoughts[0])
        else match AsInt(index)
          case Some(i) => Ok(thoughts[i])
          case None => Err(WrongShape(IndexOp))
  }

  /** The selection as run.py:164-171 writes it, on the raw `thoughts` value, which has a
      length since it was already iterated: `if thoughts and 0 <= idx < len(thoughts)` then
      `thoughts[idx]`, `elif thoughts` then `thoughts[0]`, else the empty string. */
  function BestThought(thoughts: Value, index: Value): (r: Result<Value, Failure>)
    requires Len(thoughts).Some?
    ensures thoughts.List? || thoughts.Str? ==> r == SelectBest(Elements(thoughts).value, index)
  {
    var n := Len(thoughts).value;
    if n == 0 then Ok(Str(""))
    else match Numeric(index)
      case None => Err(WrongShape(CompareOp))
      case Some(x) =>
        if 0.0 <= x < n as real then
          (match AsInt(index)
           case Some(i) => OrRaise(IndexAt(thoughts, i), IndexOp)
           case None => Err(WrongShape(IndexOp)))
        else OrRaise(IndexAt(thoughts, 0), IndexOp)
  }

  /** For a list or a string of thoughts, the code's selection always succeeds on an integer
      or bool index, and what it picks is a thought, or the empty string when there are none. */
  lemma BestThoughtFollowsPolicy(thoughts: Value, index: Value)
    requires thoughts.List? || thoughts.Str?
    ensures AsInt(index).Some? ==> BestThought(thoughts, index).Ok?
    ensures var r := BestThought(thoughts, index);
            r.Ok? ==> r.value in Elements(thoughts).value || (Len(thoughts) == Some(0) && r.value == Str(""))
  {
  }

  /** Thoughts given as a dict are iterated by key, but `thoughts[idx]` then looks an integer
      up among string keys: a non-empty dict of thoughts always fails the selection. */
  lemma DictThoughtsFailSelection(thoughts: Value, index: Value)
    requires thoughts.Dict? && thoughts.entries != []
    ensures BestThought(thoughts, index).Err?
  {
  }

  /** The worked cases: index 1 of three thoughts, an index past the only thought, and no
      thoughts at all. */
  lemma SelectBestExamples()
    ensures SelectBest([Str("t0"), Str("t1"), Str("t2")], Int(1)) == Ok(Str("t1"))
    ensures SelectBest([Str("t0")], Int(5)) == Ok(Str("t0"))
    ensures SelectBest([Str("t0"), Str("t1")], Int(-1)) == Ok(Str("t0"))
    ensures SelectBest([], Int(0)) == Ok(Str(""))
  {
  }

  /** Indexes JSON can carry besides integers: `true` is index 1, a float out of range falls
      back to the first thought, a float in range is no valid index, and a string cannot be
      compared with 0. */
  lemma SelectBestLooseIndexExamples()
    ensures SelectBest([Str("t0"), Str("t1"), Str("t2")], Bool(true)) == Ok(Str("t1"))
    ensures SelectBest([Str("t0")], Float(5.0)) == Ok(Str("t0"))
    ensures SelectBest([Str("t0"), Str("t1")], Float(1.0)) == Err(WrongShape(IndexOp))
    ensures SelectBest([Str("t0")], Str("0")) == Err(WrongShape(CompareOp))
  {
  }
}
