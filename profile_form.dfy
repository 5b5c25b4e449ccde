/** Reading the profile form (assets/js/dashboard.js, `setupProfileForm` and
    `loadProfileForm`): comma-separated lists and the study-hours number. */
module ProfileForm {
  import opened Common

  // ---------------------------------------------------------------------------
  // Comma-separated lists
  // ---------------------------------------------------------------------------

  /** `s.split(',')`: the pieces between commas, at least one. */
  function Split(s: string): (parts: seq<string>)
    ensures |parts| >= 1
    ensures forall k :: 0 <= k < |parts| ==> ',' !in parts[k]
  {
    if |s| == 0 then [""]
    else
      var rest := Split(s[1..]);
      if s[0] == ',' then [""] + rest
      else [[s[0]] + rest[0]] + rest[1..]
  }

  /** Splitting loses nothing: joining the pieces with commas gives the text back. */
  lemma {:induction false} SplitJoin(s: string)
    ensures Join(Split(s), ",") == s
  {
    if |s| > 0 {
      var rest := Split(s[1..]);
      SplitJoin(s[1..]);
      if s[0] == ',' {
        assert Split(s) == [""] + rest;
        assert Split(s)[1..] == rest;
      } else {
        var parts := Split(s);
        assert parts == [[s[0]] + rest[0]] + rest[1..];
        if |rest| == 1 {
          assert parts == [[s[0]] + rest[0]];
        } else {
          assert parts[1..] == rest[1..];
          assert Join(rest, ",") == rest[0] + "," + Join(rest[1..], ",");
        }
        assert s == [s[0]] + s[1..];
      }
    }
  }

  /** A text without commas is a single piece. */
  lemma {:induction false} SplitWithoutComma(s: string)
    requires ',' !in s
    ensures Split(s) == [s]
  {
    if |s| > 0 {
      SplitWithoutComma(s[1..]);
      assert s == [s[0]] + s[1..];
    }
  }

  /** A comma-free text, a comma and more: the text is the first piece. */
  lemma {:induction false} SplitAtComma(a: string, b: string)
    requires ',' !in a
    ensures Split(a + "," + b) == [a] + Split(b)
  {
    if |a| > 0 {
      SplitAtComma(a[1..], b);
      assert (a + "," + b)[1..] == a[1..] + "," + b;
      assert a == [a[0]] + a[1..];
    } else {
      assert a + "," + b == [','] + b;
      assert (a + "," + b)[1..] == b;
    }
  }

  function TrimStart(s: string): (r: string)
    ensures |r| <= |s| && r == s[|s| - |r|..]
    ensures |r| > 0 ==> !IsSpace(r[0])
  {
    if |s| > 0 && IsSpace(s[0]) then TrimStart(s[1..]) else s
  }

  /** `TrimStart` removes whitespace only. */
  lemma {:induction false} TrimStartRemovesSpace(s: string)
    ensures forall k :: 0 <= k < |s| - |TrimStart(s)| ==> IsSpace(s[k])
  {
    if |s| > 0 && IsSpace(s[0]) {
      TrimStartRemovesSpace(s[1..]);
      assert forall k :: 1 <= k < |s| ==> s[k] == s[1..][k - 1];
    }
  }

  function TrimEnd(s: string): (r: string)
    ensures |r| <= |s| && r == s[..|r|]
    ensures |r| > 0 ==> !IsSpace(r[|r| - 1])
  {
    if |s| > 0 && IsSpace(s[|s| - 1]) then TrimEnd(s[..|s| - 1]) else s
  }

  /** `TrimEnd` removes whitespace only. */
  lemma {:induction false} TrimEndRemovesSpace(s: string)
    ensures forall k :: |TrimEnd(s)| <= k < |s| ==> IsSpace(s[k])
  {
    if |s| > 0 && IsSpace(s[|s| - 1]) {
      TrimEndRemovesSpace(s[..|s| - 1]);
      assert forall k :: 0 <= k < |s| - 1 ==> s[k] == s[..|s| - 1][k];
    }
  }

  /** `s.trim()`: whitespace cut from both ends, nothing else changed (see
      `TrimCutsOnlySpace`). */
  function Trim(s: string): (r: string)
    ensures |r| <= |s|
    ensures |r| > 0 ==> !IsSpace(r[0]) && !IsSpace(r[|r| - 1])
    ensures forall c :: c in r ==> c in s
  {
    var t := TrimStart(s);
    if |t| > 0 then
      TrimEndKeepsStart(t);
      SliceMembers(s, |s| - |t|, |s|);
      SliceMembers(t, 0, |TrimEnd(t)|);
      TrimEnd(t)
    else TrimEnd(t)
  }

  /** The number of whitespace characters `trim` cuts from the start. */
  function LeadingSpace(s: string): nat
  {
    |s| - |TrimStart(s)|
  }

  /** The trimmed text is the slice of the input between a run of leading and
      a run of trailing whitespace. */
  lemma TrimCutsOnlySpace(s: string)
    ensures LeadingSpace(s) + |Trim(s)| <= |s|
    ensures Trim(s) == s[LeadingSpace(s)..LeadingSpace(s) + |Trim(s)|]
    ensures forall k :: 0 <= k < LeadingSpace(s) ==> IsSpace(s[k])
    ensures forall k :: LeadingSpace(s) + |Trim(s)| <= k < |s| ==> IsSpace(s[k])
  {
    var t := TrimStart(s);
    var r := TrimEnd(t);
    assert Trim(s) == r && LeadingSpace(s) == |s| - |t| by {
      TrimIsBothEnds(s);
    }
    assert |t| <= |s| && t == s[|s| - |t|..] && |r| <= |t| && r == t[..|r|];
    TrimStartRemovesSpace(s);
    TrimEndRemovesSpace(t);
    Bracketed(s, t, r);
  }

  lemma TrimIsBothEnds(s: string)
    ensures Trim(s) == TrimEnd(TrimStart(s))
  {
  }

  /** A suffix of `s` past leading whitespace, cut before its own trailing
      whitespace, is a slice of `s` with only whitespace around it. */
  lemma Bracketed(s: string, t: string, r: string)
    requires |t| <= |s| && t == s[|s| - |t|..]
    requires |r| <= |t| && r == t[..|r|]
    requires forall k :: 0 <= k < |s| - |t| ==> IsSpace(s[k])
    requires forall k :: |r| <= k < |t| ==> IsSpace(t[k])
    ensures |s| - |t| + |r| <= |s|
    ensures r == s[|s| - |t|..|s| - |t| + |r|]
    ensures forall k :: |s| - |t| + |r| <= k < |s| ==> IsSpace(s[k])
  {
    var i := |s| - |t|;
    forall k | i + |r| <= k < |s|
      ensures IsSpace(s[k])
    {
      assert s[k] == t[k - i];
    }
  }

  lemma SliceMembers(s: string, i: nat, j: nat)
    requires i <= j <= |s|
    ensures forall c :: c in s[i..j] ==> c in s
  {
    forall c | c in s[i..j] ensures c in s {
      var k :| 0 <= k < j - i && s[i..j][k] == c;
      assert s[i + k] == c;
    }
  }

  lemma TrimEndKeepsStart(s: string)
    requires |s| > 0 && !IsSpace(s[0])
    ensures |TrimEnd(s)| > 0 && TrimEnd(s)[0] == s[0]
  {
  }

  /** Trimming a text that starts and ends with no whitespace changes nothing. */
  lemma TrimClean(s: string)
    requires |s| > 0 && !IsSpace(s[0]) && !IsSpace(s[|s| - 1])
    ensures Trim(s) == s
  {
  }

  /** The entries kept from the pieces: trimmed, empty ones dropped. */
  function KeepEntries(parts: seq<string>): (entries: seq<string>)
    ensures |entries| <= |parts|
    ensures forall k :: 0 <= k < |entries| ==> entries[k] != ""
  {
    if |parts| == 0 then []
    else
      var t := Trim(parts[0]);
      (if t == "" then [] else [t]) + KeepEntries(parts[1..])
  }

  /** Keeping entries piece by piece: the entries of a concatenation are the
      entries of each part, in order. */
  lemma {:induction false} KeepEntriesAppend(a: seq<string>, b: seq<string>)
    ensures KeepEntries(a + b) == KeepEntries(a) + KeepEntries(b)
  {
    if |a| > 0 {
      var head, tail, more := KeepEntries([a[0]]), KeepEntries(a[1..]), KeepEntries(b);
      KeepEntriesAppend(a[1..], b);
      TailOfAppend(a, b);
      KeepEntriesCons(a + b);
      assert KeepEntries(a + b) == head + (tail + more);
      KeepEntriesCons(a);
      assert head + (tail + more) == (head + tail) + more;
    } else {
      assert a + b == b;
    }
  }

  lemma KeepEntriesCons(s: seq<string>)
    requires |s| > 0
    ensures KeepEntries(s) == KeepEntries([s[0]]) + KeepEntries(s[1..])
  {
    assert [s[0]][1..] == [];
  }

  /** One piece gives its trimmed text, or nothing when that is empty. */
  lemma KeepEntriesOfOne(p: string)
    ensures KeepEntries([p]) == if Trim(p) == "" then [] else [Trim(p)]
  {
    assert [p][1..] == [];
  }

  /** `value.split(',').map(s => s.trim()).filter(Boolean)` */
  function ParseList(value: string): (entries: seq<string>)
    ensures forall k :: 0 <= k < |entries| ==> CleanEntry(entries[k])
  {
    EntriesOfPiecesAreClean(Split(value));
    KeepEntries(Split(value))
  }

  /** An entry as a list field shows it: not empty, no comma, and left as it
      is by trimming. */
  predicate CleanEntry(e: string)
  {
    |e| > 0 && ',' !in e && Trim(e) == e
  }

  lemma {:induction false} EntriesOfPiecesAreClean(parts: seq<string>)
    requires forall k :: 0 <= k < |parts| ==> ',' !in parts[k]
    ensures forall k :: 0 <= k < |KeepEntries(parts)| ==> CleanEntry(KeepEntries(parts)[k])
  {
    if |parts| > 0 {
      var tail := parts[1..];
      forall k | 0 <= k < |tail|
        ensures ',' !in tail[k]
      {
        assert tail[k] == parts[k + 1];
      }
      EntriesOfPiecesAreClean(tail);
      var t, rest := Trim(parts[0]), KeepEntries(tail);
      if t == "" {
        assert KeepEntries(parts) == rest;
      } else {
        TrimmedPieceIsClean(parts[0]);
        assert KeepEntries(parts) == [t] + rest;
        CleanConcat([t], rest);
      }
    }
  }

  /** Two lists of clean entries concatenate to one. */
  lemma CleanConcat(a: seq<string>, b: seq<string>)
    requires forall k :: 0 <= k < |a| ==> CleanEntry(a[k])
    requires forall k :: 0 <= k < |b| ==> CleanEntry(b[k])
    ensures forall k :: 0 <= k < |a + b| ==> CleanEntry((a + b)[k])
  {
  }

  /** A comma-free piece trims to a clean entry or to nothing. */
  lemma TrimmedPieceIsClean(p: string)
    requires ',' !in p && Trim(p) != ""
    ensures CleanEntry(Trim(p))
  {
    var t := Trim(p);
    assert ',' in t ==> ',' in p;
    TrimClean(t);
  }

  /** A piece that begins with a space keeps the same entry as without it. */
  lemma LeadingSpaceDropped(p: string)
    ensures Trim(" " + p) == Trim(p)
  {
    assert (" " + p)[1..] == p;
  }

  lemma {:induction false} KeepEntriesAfterSpace(x: string, rest: seq<string>)
    ensures KeepEntries([" " + x] + rest) == KeepEntries([x] + rest)
  {
    LeadingSpaceDropped(x);
    assert ([" " + x] + rest)[1..] == rest;
    assert ([x] + rest)[1..] == rest;
  }

  /** A leading space only lengthens the first piece. */
  lemma SplitAfterSpace(t: string)
    ensures Split(" " + t) == [" " + Split(t)[0]] + Split(t)[1..]
  {
    assert (" " + t)[1..] == t;
  }

  /** Reading a text that starts with a space gives the same entries. */
  lemma ParseAfterSpace(t: string)
    ensures KeepEntries(Split(" " + t)) == ParseList(t)
  {
    var pieces := Split(t);
    SplitAfterSpace(t);
    KeepEntriesAfterSpace(pieces[0], pieces[1..]);
    assert [pieces[0]] + pieces[1..] == pieces;
  }

  lemma JoinCommaSpace(entries: seq<string>)
    requires |entries| > 1
    ensures Join(entries, ", ") == entries[0] + "," + (" " + Join(entries[1..], ", "))
  {
    var tail := Join(entries[1..], ", ");
    assert entries[0] + ", " + tail == entries[0] + "," + (" " + tail);
  }

  /** A clean entry in front is kept as it is. */
  lemma KeepCleanHead(e: string, ps: seq<string>)
    requires CleanEntry(e)
    ensures KeepEntries([e] + ps) == [e] + KeepEntries(ps)
  {
    assert ([e] + ps)[1..] == ps;
  }

  /** The profile form shows a stored list joined with ", " (`loadProfileForm`);
      reading the field back gives the same list. An empty list is shown as an
      empty field. */
  lemma ListRoundTrip(entries: seq<string>)
    requires forall k :: 0 <= k < |entries| ==> CleanEntry(entries[k])
    ensures ParseList(Join(entries, ", ")) == entries
  {
    if |entries| == 0 {
      EmptyListRoundTrip();
    } else {
      NonEmptyListRoundTrip(entries);
    }
  }

  lemma {:induction false} NonEmptyListRoundTrip(entries: seq<string>)
    requires |entries| > 0
    requires forall k :: 0 <= k < |entries| ==> CleanEntry(entries[k])
    ensures ParseList(Join(entries, ", ")) == entries
  {
    if |entries| == 1 {
      SingleEntry(entries[0]);
      assert entries == [entries[0]];
    } else {
      var rest := entries[1..];
      assert forall k :: 0 <= k < |rest| ==> rest[k] == entries[k + 1];
      NonEmptyListRoundTrip(rest);
      PrependHead(entries);
    }
  }

  /** A clean head in front of a tail that reads back. */
  lemma PrependHead(entries: seq<string>)
    requires |entries| > 1 && CleanEntry(entries[0])
    requires ParseList(Join(entries[1..], ", ")) == entries[1..]
    ensures ParseList(Join(entries, ", ")) == entries
  {
    PrependEntry(entries[0], entries[1..]);
    assert [entries[0]] + entries[1..] == entries;
  }

  /** The empty list is shown as an empty field, which reads back as no entries. */
  lemma EmptyListRoundTrip()
    ensures ParseList(Join([], ", ")) == []
  {
    assert Split("") == [""];
    assert Trim("") == "";
  }

  /** A single clean entry reads back as itself. */
  lemma SingleEntry(e: string)
    requires CleanEntry(e)
    ensures ParseList(Join([e], ", ")) == [e]
  {
    SplitWithoutComma(e);
    KeepCleanHead(e, []);
    assert [e] + [] == [e];
  }

  /** One more clean entry in front of a list that reads back. */
  lemma PrependEntry(e: string, rest: seq<string>)
    requires CleanEntry(e) && |rest| > 0
    requires ParseList(Join(rest, ", ")) == rest
    ensures ParseList(Join([e] + rest, ", ")) == [e] + rest
  {
    var tail := Join(rest, ", ");
    assert ([e] + rest)[1..] == rest;
    JoinCommaSpace([e] + rest);
    SplitAtComma(e, " " + tail);
    ParseAfterSpace(tail);
    KeepCleanHead(e, Split(" " + tail));
  }

  // ---------------------------------------------------------------------------
  // Study hours
  // ---------------------------------------------------------------------------

  predicate IsDigit(c: char)
  {
    '0' <= c <= '9'
  }

  /** The longest prefix of decimal digits. */
  function DigitPrefix(s: string): (d: string)
    ensures |d| <= |s| && d == s[..|d|]
    ensures forall k :: 0 <= k < |d| ==> IsDigit(d[k])
    ensures |d| < |s| ==> !IsDigit(s[|d|])
  {
    if |s| > 0 && IsDigit(s[0]) then [s[0]] + DigitPrefix(s[1..]) else ""
  }

  /** The value of a string of decimal digits. */
  function DigitsValue(d: string): (n: nat)
    requires forall k :: 0 <= k < |d| ==> IsDigit(d[k])
  {
    if |d| == 0 then 0
    else
      assert IsDigit(d[|d| - 1]);
      DigitsValue(d[..|d| - 1]) * 10 + (d[|d| - 1] as int - '0' as int)
  }

  /** `parseInt(s, 10)`: leading whitespace skipped, an optional sign, then the
      longest run of digits; `None` (NaN) when there is no digit. */
  function ParseInt(s: string): (r: Option<int>)
    ensures r.None? <==> DigitPrefix(SignStripped(TrimStart(s))) == ""
  {
    var t := TrimStart(s);
    var digits := DigitPrefix(SignStripped(t));
    if |digits| == 0 then None
    else if |t| > 0 && t[0] == '-' then Some(0 - DigitsValue(digits) as int)
    else Some(DigitsValue(digits))
  }

  function SignStripped(t: string): string
  {
    if |t| > 0 && (t[0] == '-' || t[0] == '+') then t[1..] else t
  }

  /** `parseInt(value, 10) || 10`: NaN and 0 are falsy. */
  function StudyHours(value: string): (hours: int)
    ensures hours != 0
    ensures ParseInt(value).None? ==> hours == 10
    ensures ParseInt(value) == Some(0) ==> hours == 10
    ensures ParseInt(value).Some? && ParseInt(value).value != 0 ==> hours == ParseInt(value).value
  {
    match ParseInt(value)
    case None => 10
    case Some(n) => if n == 0 then 10 else n
  }

  /** The decimal text of a natural number (how the form shows a stored number). */
  function DecimalText(n: nat): (s: string)
    ensures |s| > 0 && forall k :: 0 <= k < |s| ==> IsDigit(s[k])
  {
    if n < 10 then [('0' as int + n) as char]
    else DecimalText(n / 10) + [('0' as int + n % 10) as char]
  }

  lemma {:induction false} DigitsValueOfDecimalText(n: nat)
    ensures DigitsValue(DecimalText(n)) == n
  {
    if n >= 10 {
      DigitsValueOfDecimalText(n / 10);
      var s := DecimalText(n);
      assert s[..|s| - 1] == DecimalText(n / 10);
    }
  }

  lemma {:induction false} DigitPrefixOfDigits(s: string)
    requires forall k :: 0 <= k < |s| ==> IsDigit(s[k])
    ensures DigitPrefix(s) == s
  {
    if |s| > 0 {
      DigitPrefixOfDigits(s[1..]);
      assert s == [s[0]] + s[1..];
    }
  }

  /** A number shown in the form reads back as itself. */
  lemma StudyHoursRoundTrip(n: nat)
    ensures ParseInt(DecimalText(n)) == Some(n)
    ensures n > 0 ==> StudyHours(DecimalText(n)) == n
  {
    var s := DecimalText(n);
    assert !IsSpace(s[0]);
    assert TrimStart(s) == s;
    assert SignStripped(s) == s;
    DigitPrefixOfDigits(s);
    DigitsValueOfDecimalText(n);
  }
}
