/** The indentation layout of backend/recommendation_algorithm.py as Python's
    tokenizer reads it. The tokenizer keeps a stack of open indentation
    columns, starting with column 0: a line indented deeper than the top opens
    a new level, and a shallower line must close levels until it lands exactly
    on an open column, or the module is rejected with an `IndentationError`
    before any of it runs. Only logical lines count: blank lines, comments and
    lines inside brackets are skipped. */
module Layout {
  import opened Common

  /** Open columns are strictly increasing from the bottom of the stack. */
  predicate Increasing(stack: seq<nat>)
  {
    forall i, j :: 0 <= i < j < |stack| ==> stack[i] < stack[j]
  }

  /** A dedent to column `c`: the levels still open once every level deeper
      than `c` is closed, or `None` when `c` is not an open column (see
      `DedentFindsOpenColumns`). */
  function Dedent(stack: seq<nat>, c: nat): (r: Option<seq<nat>>)
    ensures r.Some? ==> c in stack
    ensures r.Some? ==> 0 < |r.value| <= |stack| && r.value == stack[..|r.value|]
                        && r.value[|r.value| - 1] == c
  {
    if |stack| == 0 then None
    else
      var top := stack[|stack| - 1];
      if top == c then Some(stack)
      else if top < c then None
      else
        var rest := Dedent(stack[..|stack| - 1], c);
        assert rest.Some? ==> stack[..|stack| - 1][..|rest.value|] == stack[..|rest.value|];
        rest
  }

  /** On well-formed levels a dedent fails exactly when the column is not open. */
  lemma {:induction false} DedentFindsOpenColumns(stack: seq<nat>, c: nat)
    requires Increasing(stack)
    ensures Dedent(stack, c).Some? <==> c in stack
  {
    if |stack| > 0 && stack[|stack| - 1] > c {
      var prefix := stack[..|stack| - 1];
      DedentFindsOpenColumns(prefix, c);
      assert c in stack ==> c in prefix;
    }
  }

  /** The levels open after one line at column `c`, or `None` when the line is
      rejected. */
  function Step(stack: seq<nat>, c: nat): (r: Option<seq<nat>>)
    ensures r.Some? ==> |r.value| > 0 && r.value[|r.value| - 1] == c
  {
    if |stack| > 0 && c > stack[|stack| - 1] then Some(stack + [c]) else Dedent(stack, c)
  }

  /** On well-formed levels, a line is rejected exactly when it dedents to a
      column that is not open, and the levels stay well formed. */
  lemma StepRejectsExactly(stack: seq<nat>, c: nat)
    requires |stack| > 0 && Increasing(stack)
    ensures Step(stack, c).None? <==> c < stack[|stack| - 1] && c !in stack
    ensures Step(stack, c).Some? ==> Increasing(Step(stack, c).value)
  {
    DedentFindsOpenColumns(stack, c);
  }

  /** The position of the first line the tokenizer rejects, or `None` when it
      accepts every line. */
  function FirstIndentationError(stack: seq<nat>, columns: seq<nat>): (r: Option<nat>)
    ensures r.Some? ==> r.value < |columns|
    ensures r == Some(0) <==> |columns| > 0 && Step(stack, columns[0]).None?
    decreases |columns|
  {
    if |columns| == 0 then None
    else
      match Step(stack, columns[0])
      case None => Some(0)
      case Some(next) =>
        match FirstIndentationError(next, columns[1..])
        case None => None
        case Some(k) => Some(k + 1)
  }

  /** The columns of the lines that decide how backend/recommendation_algorithm.py
      is tokenized, as written: the class header (line 37), `__init__` (38)
      and its body (40), `_load_courses` at column 0 (51) and its body (52),
      and `_load_major_requirements` at column 4 (104). The deeper levels
      opened inside `_load_courses` are all closed again by its `return` at
      column 8 (63), so they do not change the outcome. */
  const AsWritten: seq<nat> := [0, 4, 8, 0, 8, 4]

  /** The same lines with `_load_courses` indented as a method of the class. */
  const Intended: seq<nat> := [0, 4, 8, 4, 8, 4]

  /** As written, the module is rejected at line 104, the last of the lines:
      `_load_courses` at column 0 closes the class, so column 4 is no longer
      open when `_load_major_requirements` dedents to it. */
  lemma AsWrittenIsRejected()
    ensures FirstIndentationError([0], AsWritten) == Some(|AsWritten| - 1)
  {
    var before := AsWritten[..|AsWritten| - 1];
    assert before == [0, 4, 8, 0, 8];
    Accept([0], [0, 4, 8, 0, 8], [0]);
    assert [0, 4, 8, 0, 8][1..] == [4, 8, 0, 8];
    assert [0] + [4] == [0, 4];
    Accept([0], [4, 8, 0, 8], [0, 4]);
    assert [4, 8, 0, 8][1..] == [8, 0, 8];
    assert [0, 4] + [8] == [0, 4, 8];
    Accept([0, 4], [8, 0, 8], [0, 4, 8]);
    assert [8, 0, 8][1..] == [0, 8];
    assert [0, 4, 8][..2] == [0, 4];
    assert [0, 4][..1] == [0];
    assert Dedent([0, 4], 0) == Some([0]);
    assert Dedent([0, 4, 8], 0) == Some([0]);
    Accept([0, 4, 8], [0, 8], [0]);
    assert [0, 8][1..] == [8];
    assert [0] + [8] == [0, 8];
    Accept([0], [8], [0, 8]);
    assert [8][1..] == [];
    assert Levels([0, 8], []) == Some([0, 8]);
    assert Levels([0], before) == Some([0, 8]);
    assert Step([0, 8], 4).None?;
    FirstIndentationErrorAfter([0], before, [0, 8], 4);
    assert before + [4] == AsWritten;
  }

  /** With `_load_courses` indented as a method, every line is accepted. */
  lemma IntendedIsAccepted()
    ensures FirstIndentationError([0], Intended) == None
  {
    Accept([0], [0, 4, 8, 4, 8, 4], [0]);
    assert [0, 4, 8, 4, 8, 4][1..] == [4, 8, 4, 8, 4];
    assert [0] + [4] == [0, 4];
    Accept([0], [4, 8, 4, 8, 4], [0, 4]);
    assert [4, 8, 4, 8, 4][1..] == [8, 4, 8, 4];
    assert [0, 4] + [8] == [0, 4, 8];
    Accept([0, 4], [8, 4, 8, 4], [0, 4, 8]);
    assert [8, 4, 8, 4][1..] == [4, 8, 4];
    assert [0, 4, 8][..2] == [0, 4];
    assert Dedent([0, 4, 8], 4) == Some([0, 4]);
    Accept([0, 4, 8], [4, 8, 4], [0, 4]);
    assert [4, 8, 4][1..] == [8, 4];
    assert [0, 4] + [8] == [0, 4, 8];
    Accept([0, 4], [8, 4], [0, 4, 8]);
    assert [8, 4][1..] == [4];
    assert [0, 4, 8][..2] == [0, 4];
    assert Dedent([0, 4, 8], 4) == Some([0, 4]);
    Accept([0, 4, 8], [4], [0, 4]);
    assert [4][1..] == [];
    assert Levels([0], Intended) == Some([0, 4]);
    AcceptedExactlyWithLevels([0], Intended);
  }

  /** Accepting one line moves on to the rest with the levels it leaves open. */
  lemma Accept(stack: seq<nat>, columns: seq<nat>, next: seq<nat>)
    requires |columns| > 0 && Step(stack, columns[0]) == Some(next)
    ensures Levels(stack, columns) == Levels(next, columns[1..])
  {
  }

  /** Lines accepted one after another, ending with the open levels `open`,
      followed by a line that `open` rejects: the error is at that line. */
  lemma {:induction false} FirstIndentationErrorAfter(stack: seq<nat>, accepted: seq<nat>, open: seq<nat>, c: nat)
    requires Levels(stack, accepted) == Some(open)
    requires Step(open, c).None?
    ensures FirstIndentationError(stack, accepted + [c]) == Some(|accepted|)
    decreases |accepted|
  {
    if |accepted| == 0 {
      assert accepted + [c] == [c];
    } else {
      var next := Step(stack, accepted[0]).value;
      assert (accepted + [c])[1..] == accepted[1..] + [c];
      FirstIndentationErrorAfter(next, accepted[1..], open, c);
    }
  }

  /** The levels open after a run of lines, or `None` if one is rejected. */
  function Levels(stack: seq<nat>, columns: seq<nat>): Option<seq<nat>>
    decreases |columns|
  {
    if |columns| == 0 then Some(stack)
    else
      match Step(stack, columns[0])
      case None => None
      case Some(next) => Levels(next, columns[1..])
  }

  /** The lines leave some levels open exactly when none of them is rejected. */
  lemma {:induction false} AcceptedExactlyWithLevels(stack: seq<nat>, columns: seq<nat>)
    ensures Levels(stack, columns).Some? <==> FirstIndentationError(stack, columns).None?
    decreases |columns|
  {
    if |columns| > 0 && Step(stack, columns[0]).Some? {
      AcceptedExactlyWithLevels(Step(stack, columns[0]).value, columns[1..]);
    }
  }
}
