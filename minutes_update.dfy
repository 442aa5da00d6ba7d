/**
 * The database-update script's computations, once its SQL rows are given as
 * sequences: the composer and poet lines, the last-name rule, the sequential
 * lead ids and the per-year song statistics with their competition ranks.
 *
 * Python's None (a NULL column) is Option's None; text columns are unicode
 * strings, as the script's TEXT converter makes them.
 */
module MinutesUpdate {
  import opened Wrappers
  import opened Java

  /** The Python exceptions these computations can raise. */
  datatype PyError =
    | TypeError        // None + str, str + None
    | IndexError       // [-1] of an empty list
    | AttributeError   // a method called on None
    | KeyError         // a dict lookup of a missing key

  datatype Outcome<+T> = Ok(value: T) | Err(error: PyError)

  // ---------------------------------------------------------------------------------
  // Composer and poet lines
  // ---------------------------------------------------------------------------------

  /** Python truth of a text value: neither None nor empty. */
  predicate Truthy(s: Option<string>) {
    s.Some? && s.value != ""
  }

  /** sep.join(xs). */
  function Join(sep: string, xs: seq<string>): string
    decreases |xs|
  {
    if |xs| == 0 then "" else if |xs| == 1 then xs[0] else Join(sep, xs[..|xs| - 1]) + sep + xs[|xs| - 1]
  }

  lemma JoinPair(sep: string, a: string, b: string)
    ensures Join(sep, [a, b]) == a + sep + b
  {
    assert [a, b][..1] == [a];
  }

  /** x occurs in s starting at index i. */
  predicate OccursAt(x: string, s: string, i: int) {
    0 <= i && i + |x| <= |s| && s[i..i + |x|] == x
  }

  ghost predicate IsSubstring(x: string, s: string) {
    exists i :: OccursAt(x, s, i)
  }

  lemma SubstringOfConcat(x: string, a: string, b: string)
    requires IsSubstring(x, a) || IsSubstring(x, b)
    ensures IsSubstring(x, a + b)
  {
    if IsSubstring(x, a) {
      var i :| OccursAt(x, a, i);
      assert (a + b)[i..i + |x|] == x;
      assert OccursAt(x, a + b, i);
    } else {
      var i :| OccursAt(x, b, i);
      assert (a + b)[|a| + i..|a| + i + |x|] == x;
      assert OccursAt(x, a + b, |a| + i);
    }
  }

  /** No element of a join is lost. */
  lemma {:induction false} JoinKeepsAll(sep: string, xs: seq<string>)
    ensures forall k :: 0 <= k < |xs| ==> IsSubstring(xs[k], Join(sep, xs))
    decreases |xs|
  {
    if |xs| == 1 {
      assert Join(sep, xs)[0..|xs[0]|] == xs[0];
      assert OccursAt(xs[0], Join(sep, xs), 0);
    } else if |xs| > 1 {
      var init := xs[..|xs| - 1];
      JoinKeepsAll(sep, init);
      forall k | 0 <= k < |xs|
        ensures IsSubstring(xs[k], Join(sep, xs))
      {
        if k < |xs| - 1 {
          assert xs[k] == init[k];
          SubstringOfConcat(xs[k], Join(sep, init), sep);
          SubstringOfConcat(xs[k], Join(sep, init) + sep, xs[|xs| - 1]);
        } else {
          assert xs[k][0..|xs[k]|] == xs[k];
          assert OccursAt(xs[k], xs[k], 0);
          SubstringOfConcat(xs[k], Join(sep, init) + sep, xs[k]);
        }
      }
    }
  }

  /** The arguments namelistjoin keeps: the truthy ones, in order. */
  function Kept(args: seq<Option<string>>): (names: seq<string>)
    ensures |names| <= |args|
    ensures forall k :: 0 <= k < |names| ==> names[k] != ""
    decreases |args|
  {
    if args == [] then []
    else
      var init := args[..|args| - 1];
      Kept(init) + (if Truthy(args[|args| - 1]) then [args[|args| - 1].value] else [])
  }

  /** The kept names are exactly the non-empty arguments. */
  lemma {:induction false} KeptMembers(args: seq<Option<string>>)
    ensures forall x :: x in Kept(args) <==> x != "" && Some(x) in args
    decreases |args|
  {
    if args != [] {
      var init := args[..|args| - 1];
      KeptMembers(init);
      assert args == init + [args[|args| - 1]];
    }
  }

  /** namelistjoin as written: with more than two names, the first two and the last. */
  function NameListJoinAsWritten(args: seq<Option<string>>): string {
    var names := Kept(args);
    if |names| > 2 then Join(", ", names[..2]) + " & " + names[|names| - 1]
    else Join(" & ", names)
  }

  /** namelistjoin as its documentation describes it: "a, b & c", every name but the last before the "&". */
  function NameListJoin(args: seq<Option<string>>): (r: string)
    ensures |Kept(args)| == 0 ==> r == ""
    ensures |Kept(args)| == 1 ==> r == Kept(args)[0]
    ensures |Kept(args)| == 2 ==> r == Kept(args)[0] + " & " + Kept(args)[1]
  {
    var names := Kept(args);
    if |names| == 2 then
      JoinPair(" & ", names[0], names[1]);
      assert names == [names[0], names[1]];
      Join(" & ", names)
    else if |names| > 2 then Join(", ", names[..|names| - 1]) + " & " + names[|names| - 1]
    else Join(" & ", names)
  }

  /** Every name that is kept appears in the joined line. */
  lemma NameListJoinKeepsNames(args: seq<Option<string>>)
    ensures forall x :: x != "" && Some(x) in args ==> IsSubstring(x, NameListJoin(args))
  {
    var names := Kept(args);
    KeptMembers(args);
    if |names| > 2 {
      var init := names[..|names| - 1];
      JoinKeepsAll(", ", init);
      forall x | x != "" && Some(x) in args
        ensures IsSubstring(x, NameListJoin(args))
      {
        var k :| 0 <= k < |names| && names[k] == x;
        if k < |names| - 1 {
          assert init[k] == x;
          SubstringOfConcat(x, Join(", ", init), " & ");
          SubstringOfConcat(x, Join(", ", init) + " & ", names[|names| - 1]);
        } else {
          assert x[0..|x|] == x;
          assert OccursAt(x, x, 0);
          SubstringOfConcat(x, Join(", ", init) + " & ", x);
        }
      }
    } else {
      JoinKeepsAll(" & ", names);
    }
  }

  /** With at most three arguments, as makenames passes them, the two agree. */
  lemma NameListJoinAgreesUpToThree(args: seq<Option<string>>)
    requires |args| <= 3
    ensures NameListJoinAsWritten(args) == NameListJoin(args)
  {
    var names := Kept(args);
    if |names| > 2 {
      assert names[..2] == names[..|names| - 1];
    }
  }

  /** When every argument is a non-empty name, all of them are kept. */
  lemma {:induction false} KeptAllNames(args: seq<Option<string>>)
    requires forall k :: 0 <= k < |args| ==> Truthy(args[k])
    ensures |Kept(args)| == |args| && forall k :: 0 <= k < |args| ==> Some(Kept(args)[k]) == args[k]
    decreases |args|
  {
    if args != [] {
      KeptAllNames(args[..|args| - 1]);
    }
  }

  lemma KeptFour(a: string, b: string, c: string, d: string)
    requires a != "" && b != "" && c != "" && d != ""
    ensures Kept([Some(a), Some(b), Some(c), Some(d)]) == [a, b, c, d]
  {
    var args := [Some(a), Some(b), Some(c), Some(d)];
    KeptAllNames(args);
    var k := Kept(args);
    assert Some(k[0]) == Some(a) && Some(k[1]) == Some(b) && Some(k[2]) == Some(c) && Some(k[3]) == Some(d);
  }

  lemma NotSubstring(c: char, r: string)
    requires forall k :: 0 <= k < |r| ==> r[k] != c
    ensures !IsSubstring([c], r)
  {
    forall i
      ensures !OccursAt([c], r, i)
    {
      if 0 <= i < |r| {
        assert r[i..i + 1][0] == r[i];
      }
    }
  }

  lemma JoinTriple(sep: string, a: string, b: string, c: string)
    ensures Join(sep, [a, b, c]) == a + sep + b + sep + c
  {
    assert [a, b, c][..2] == [a, b];
    JoinPair(sep, a, b);
  }

  lemma KeptThree(a: string, b: string, c: string)
    requires a != "" && b != "" && c != ""
    ensures Kept([Some(a), Some(b), Some(c)]) == [a, b, c]
  {
    var args := [Some(a), Some(b), Some(c)];
    KeptAllNames(args);
    var k := Kept(args);
    assert Some(k[0]) == Some(a) && Some(k[1]) == Some(b) && Some(k[2]) == Some(c);
  }

  /** The documented shape: three names give "a, b & c". */
  lemma NameListJoinThree(a: string, b: string, c: string)
    requires a != "" && b != "" && c != ""
    ensures NameListJoin([Some(a), Some(b), Some(c)]) == a + ", " + b + " & " + c
  {
    KeptThree(a, b, c);
    assert [a, b, c][..2] == [a, b];
    JoinPair(", ", a, b);
  }

  /**
   * With three or more names the line ends in " & " and the last name, and every other
   * name comes before that "&".
   */
  lemma NameListJoinLastAfterAmpersand(args: seq<Option<string>>)
    requires |Kept(args)| > 2
    ensures var names, r := Kept(args), NameListJoin(args);
            var tail := " & " + names[|names| - 1];
            && |tail| <= |r| && r[|r| - |tail|..] == tail
            && forall k :: 0 <= k < |names| - 1 ==> IsSubstring(names[k], r[..|r| - |tail|])
  {
    var names, r := Kept(args), NameListJoin(args);
    var init := names[..|names| - 1];
    var tail := " & " + names[|names| - 1];
    assert r == Join(", ", init) + tail;
    assert r[..|r| - |tail|] == Join(", ", init);
    JoinKeepsAll(", ", init);
    forall k | 0 <= k < |names| - 1
      ensures IsSubstring(names[k], r[..|r| - |tail|])
    {
      assert init[k] == names[k];
    }
  }

  /** With four names, the line as written joins only the first two and the last. */
  lemma NameListJoinAsWrittenFour(a: string, b: string, c: string, d: string)
    requires a != "" && b != "" && c != "" && d != ""
    ensures NameListJoinAsWritten([Some(a), Some(b), Some(c), Some(d)]) == a + ", " + b + " & " + d
  {
    KeptFour(a, b, c, d);
    assert [a, b, c, d][..2] == [a, b];
    JoinPair(", ", a, b);
  }

  /** So "A", "B", "C", "D" give "A, B & D", which has no "C". */
  lemma NameListJoinAsWrittenDropsName()
    ensures NameListJoinAsWritten([Some("A"), Some("B"), Some("C"), Some("D")]) == "A, B & D"
    ensures !IsSubstring("C", NameListJoinAsWritten([Some("A"), Some("B"), Some("C"), Some("D")]))
  {
    NameListJoinAsWrittenFour("A", "B", "C", "D");
    assert "A" + ", " + "B" + " & " + "D" == "A, B & D";
    NotSubstring('C', "A, B & D");
  }

  /** The corrected line keeps all four names. */
  lemma NameListJoinKeepsFour(a: string, b: string, c: string, d: string)
    requires a != "" && b != "" && c != "" && d != ""
    ensures NameListJoin([Some(a), Some(b), Some(c), Some(d)]) == a + ", " + b + ", " + c + " & " + d
  {
    KeptFour(a, b, c, d);
    assert [a, b, c, d][..3] == [a, b, c];
    JoinTriple(", ", a, b, c);
  }

  /** makenames' inner namejoin: a space between the parts only when both are non-empty. */
  function NameJoin(a: Option<string>, b: Option<string>): (r: Outcome<string>)
    ensures r.Ok? <==> a.Some? && b.Some?
    ensures r.Err? ==> r.error == TypeError
    ensures Truthy(a) && Truthy(b) ==> r == Ok(a.value + " " + b.value)
    ensures r.Ok? && !(Truthy(a) && Truthy(b)) ==> r.value == a.value + b.value && (r.value == a.value || r.value == b.value)
  {
    if Truthy(a) && Truthy(b) then Ok(a.value + " " + b.value)
    else if a.Some? && b.Some? then Ok(a.value + b.value)
    else Err(TypeError)
  }

  /** A joined name is empty exactly when both parts are. */
  lemma NameJoinEmpty(a: string, b: string)
    ensures NameJoin(Some(a), Some(b)).value == "" <==> a == "" && b == ""
  {
    if a != "" && b != "" {
      assert |a + " " + b| > 0;
    }
  }

  /**
   * makenames: the joined names, then the first date; with both dates, each name
   * with its own date, the book standing in for a missing second name.
   */
  function MakeNames(aFirst: Option<string>, aLast: Option<string>, aDate: Option<string>,
                     bFirst: Option<string>, bLast: Option<string>, bDate: Option<string>,
                     book: Option<string>): (r: Outcome<string>)
    ensures r.Err? ==> r.error == TypeError
    ensures r.Ok? <==>
              && aFirst.Some? && aLast.Some? && bFirst.Some? && bLast.Some?
              && !(Truthy(aDate) && Truthy(bDate) && NameJoin(bFirst, bLast).value == "" && book.None?)
    ensures r.Ok? && !Truthy(aDate) ==>
              r.value == NameListJoin([Some(NameJoin(aFirst, aLast).value), Some(NameJoin(bFirst, bLast).value), book])
    ensures r.Ok? && Truthy(aDate) && !Truthy(bDate) ==>
              r.value == NameListJoin([Some(NameJoin(aFirst, aLast).value), Some(NameJoin(bFirst, bLast).value), book]) + ", " + aDate.value
    ensures r.Ok? && Truthy(aDate) && Truthy(bDate) ==>
              var second := if NameJoin(bFirst, bLast).value != "" then NameJoin(bFirst, bLast).value else book.value;
              r.value == NameJoin(aFirst, aLast).value + ", " + aDate.value + "; " + second + ", " + bDate.value
  {
    var a := NameJoin(aFirst, aLast);
    var b := NameJoin(bFirst, bLast);
    if a.Err? || b.Err? then Err(TypeError)
    else
      var names := NameListJoin([Some(a.value), Some(b.value), book]);
      var names := if Truthy(aDate) then names + ", " + aDate.value else names;
      if Truthy(aDate) && Truthy(bDate) then
        var second := if b.value != "" then Some(b.value) else book;
        if second.None? then Err(TypeError)
        else Ok(a.value + ", " + aDate.value + "; " + second.value + ", " + bDate.value)
      else Ok(names)
  }

  /** A single composer with a date: "First Last, date". */
  lemma MakeNamesSingle(first: string, last: string, date: string)
    requires first != "" && last != "" && date != ""
    ensures MakeNames(Some(first), Some(last), Some(date), Some(""), Some(""), Some(""), Some("")) ==
            Ok(first + " " + last + ", " + date)
  {
    var args := [Some(first + " " + last), Some(""), Some("")];
    assert args[..1] == [Some(first + " " + last)];
    assert args[..2][..1] == args[..1];
    assert Kept(args[..1]) == [first + " " + last];
    assert args[..2] == args[..|args[..2]|];
    assert Kept(args[..2]) == [first + " " + last];
    assert args[..|args| - 1] == args[..2];
    assert Kept(args) == [first + " " + last];
  }

  /** A second date without a first is never shown. */
  lemma MakeNamesIgnoresLoneSecondDate(aFirst: Option<string>, aLast: Option<string>, aDate: Option<string>,
                                       bFirst: Option<string>, bLast: Option<string>,
                                       bDate1: Option<string>, bDate2: Option<string>, book: Option<string>)
    requires !Truthy(aDate)
    ensures MakeNames(aFirst, aLast, aDate, bFirst, bLast, bDate1, book) ==
            MakeNames(aFirst, aLast, aDate, bFirst, bLast, bDate2, book)
  {
  }

  // ---------------------------------------------------------------------------------
  // last_name: name.rsplit(None, 1)[-1]
  // ---------------------------------------------------------------------------------

  /** unicode.isspace in Python 2.7. */
  predicate IsSpace(c: char) {
    ('\t' <= c <= '\r') || ('\U{1c}' <= c <= ' ') || c == '\U{85}' || c == '\U{a0}'
    || c == '\U{1680}' || c == '\U{180e}' || ('\U{2000}' <= c <= '\U{200a}')
    || c == '\U{2028}' || c == '\U{2029}' || c == '\U{202f}' || c == '\U{205f}' || c == '\U{3000}'
  }

  /** Where the trailing whitespace of s begins. */
  function TrailingStart(s: string): (e: nat)
    ensures e <= |s|
    ensures forall k :: e <= k < |s| ==> IsSpace(s[k])
    ensures e == 0 || !IsSpace(s[e - 1])
    decreases |s|
  {
    if s == [] || !IsSpace(s[|s| - 1]) then |s| else TrailingStart(s[..|s| - 1])
  }

  /** Where the word ending at e begins: after the whitespace before it, or at the start. */
  function WordStart(s: string, e: nat): (b: nat)
    requires e <= |s|
    ensures b <= e
    ensures forall k :: b <= k < e ==> !IsSpace(s[k])
    ensures b == 0 || IsSpace(s[b - 1])
    decreases e
  {
    if e == 0 || IsSpace(s[e - 1]) then e else WordStart(s, e - 1)
  }

  /** w is the word of s at b: after whitespace or at the start, with only whitespace after it. */
  predicate LastWordAt(s: string, w: string, b: int) {
    && OccursAt(w, s, b)
    && (b == 0 || IsSpace(s[b - 1]))
    && forall k :: b + |w| <= k < |s| ==> IsSpace(s[k])
  }

  /**
   * The last_name rule: the last whitespace-separated word of the name. A NULL name
   * has no rsplit; a name that is only whitespace splits into nothing, and [-1] fails.
   */
  function LastName(name: Option<string>): (r: Outcome<string>)
    ensures r == Err(AttributeError) <==> name.None?
    ensures r == Err(IndexError) <==> name.Some? && forall k :: 0 <= k < |name.value| ==> IsSpace(name.value[k])
    ensures r.Ok? ==> name.Some? && |r.value| > 0 && forall k :: 0 <= k < |r.value| ==> !IsSpace(r.value[k])
    ensures r.Ok? ==> var s := name.value;
              exists b :: LastWordAt(s, r.value, b)
  {
    if name.None? then Err(AttributeError)
    else
      var s := name.value;
      var e := TrailingStart(s);
      if e == 0 then Err(IndexError)
      else
        var b := WordStart(s, e);
        assert !IsSpace(s[e - 1]);
        assert LastWordAt(s, s[b..e], b);
        Ok(s[b..e])
  }

  /** The last name of "first last" is "last", whatever the first names are. */
  lemma LastNameOfFullName(first: string, last: string)
    requires |last| > 0 && forall k :: 0 <= k < |last| ==> !IsSpace(last[k])
    ensures LastName(Some(first + " " + last)) == Ok(last)
  {
    var s := first + " " + last;
    assert TrailingStart(s) == |s|;
    var b := WordStart(s, |s|);
    assert s[|first|] == ' ';
    assert forall k :: |first| + 1 <= k < |s| ==> s[k] == last[k - |first| - 1];
    assert b == |first| + 1;
    assert s[b..|s|] == last;
  }

  // ---------------------------------------------------------------------------------
  // lead_id: one id per lead, a run of consecutive rows with the same song and singing
  // ---------------------------------------------------------------------------------

  /** A song_leader_joins row: its id, song_id and minutes_id (the singing). */
  datatype JoinRow = JoinRow(id: int, song: Option<int>, singing: Option<int>)

  /** Python's "%s" of an integer column. */
  function PyStr(v: Option<int>): (s: string)
    ensures |s| > 0 && forall k :: 0 <= k < |s| ==> s[k] != '_'
  {
    if v.None? then "None" else LongToString(v.value)
  }

  /** The key the loop compares: "%s_%s" % (song, singing). */
  function SongSinging(r: JoinRow): string {
    PyStr(r.song) + "_" + PyStr(r.singing)
  }

  lemma {:induction false} NatToDecimalInjective(m: nat, n: nat)
    requires NatToDecimal(m) == NatToDecimal(n)
    ensures m == n
  {
    NatToDecimalValue(m);
    NatToDecimalValue(n);
  }

  lemma PyStrInjective(u: Option<int>, v: Option<int>)
    requires PyStr(u) == PyStr(v)
    ensures u == v
  {
    assert PyStr(u)[0] == PyStr(v)[0];
    if u.Some? && v.Some? {
      var m, n := u.value, v.value;
      if m < 0 && n < 0 {
        assert LongToString(m)[1..] == NatToDecimal(-m);
        assert LongToString(n)[1..] == NatToDecimal(-n);
        NatToDecimalInjective(-m, -n);
      } else if m >= 0 && n >= 0 {
        NatToDecimalInjective(m, n);
      }
    }
  }

  /** The formatted key tells pairs apart: no decimal number and no "None" contains '_'. */
  lemma SongSingingInjective(r1: JoinRow, r2: JoinRow)
    ensures SongSinging(r1) == SongSinging(r2) <==> r1.song == r2.song && r1.singing == r2.singing
  {
    if SongSinging(r1) == SongSinging(r2) {
      var a, b, c, d := PyStr(r1.song), PyStr(r1.singing), PyStr(r2.song), PyStr(r2.singing);
      var s := a + "_" + b;
      assert s[|a|] == '_' && (c + "_" + d)[|c|] == '_';
      assert |a| == |c|;
      assert a == s[..|a|] == c;
      assert b == s[|a| + 1..] == d;
      PyStrInjective(r1.song, r2.song);
      PyStrInjective(r1.singing, r2.singing);
    }
  }

  /** Whether row i starts a new lead: its (song, singing) pair differs from the previous row's. */
  predicate StartsLead(rows: seq<JoinRow>, i: nat)
    requires 0 < i < |rows|
  {
    rows[i].song != rows[i - 1].song || rows[i].singing != rows[i - 1].singing
  }

  /** The number of lead changes in rows 1..i. */
  function ChangesUpTo(rows: seq<JoinRow>, i: nat): nat
    requires i < |rows|
  {
    if i == 0 then 0 else ChangesUpTo(rows, i - 1) + (if StartsLead(rows, i) then 1 else 0)
  }

  /** The (id, lead_id) updates of the loop: row k gets one more than the lead changes up to it. */
  function LeadUpdates(rows: seq<JoinRow>): (u: seq<(int, int)>)
    ensures |u| == |rows|
  {
    seq(|rows|, k requires 0 <= k < |rows| => (rows[k].id, 1 + ChangesUpTo(rows, k)))
  }

  /** The lead_id loop: count up when the formatted pair differs from the previous one. */
  method AssignLeadIds(rows: seq<JoinRow>) returns (updates: seq<(int, int)>)
    ensures updates == LeadUpdates(rows)
  {
    ghost var target := LeadUpdates(rows);
    var leadId := 0;
    var lastSongSinging: Option<string> := None;
    updates := [];
    for i := 0 to |rows|
      invariant updates == target[..i]
      invariant i == 0 ==> leadId == 0 && lastSongSinging == None
      invariant i > 0 ==> leadId == 1 + ChangesUpTo(rows, i - 1) && lastSongSinging == Some(SongSinging(rows[i - 1]))
    {
      var songSinging := SongSinging(rows[i]);
      var changed := lastSongSinging != Some(songSinging);
      if i > 0 {
        KeyChangesAtLead(rows, i, lastSongSinging, songSinging);
      }
      if changed {
        leadId := leadId + 1;
        lastSongSinging := Some(songSinging);
      }
      assert target[..i + 1] == target[..i] + [target[i]];
      updates := updates + [(rows[i].id, leadId)];
    }
    assert target[..|rows|] == target;
  }

  /** Comparing the formatted keys of neighbouring rows decides a change of lead. */
  lemma KeyChangesAtLead(rows: seq<JoinRow>, i: nat, last: Option<string>, key: string)
    requires 0 < i < |rows| && last == Some(SongSinging(rows[i - 1])) && key == SongSinging(rows[i])
    ensures (last != Some(key)) == StartsLead(rows, i)
    ensures ChangesUpTo(rows, i) == ChangesUpTo(rows, i - 1) + (if last != Some(key) then 1 else 0)
  {
    SongSingingInjective(rows[i], rows[i - 1]);
  }

  /** The ids never decrease, and rise by one exactly at a change of song or singing. */
  lemma LeadIdsStep(rows: seq<JoinRow>, i: nat)
    requires 0 < i < |rows|
    ensures ChangesUpTo(rows, i) == ChangesUpTo(rows, i - 1) + (if StartsLead(rows, i) then 1 else 0)
    ensures ChangesUpTo(rows, i - 1) <= ChangesUpTo(rows, i) <= ChangesUpTo(rows, i - 1) + 1
  {
  }

  /** Two rows share a lead id exactly when every row between them continues the same lead. */
  lemma {:induction false} SameLeadIdIffSameRun(rows: seq<JoinRow>, i: nat, j: nat)
    requires i <= j < |rows|
    ensures ChangesUpTo(rows, i) == ChangesUpTo(rows, j) <==> forall k :: i < k <= j ==> !StartsLead(rows, k)
    decreases j - i
  {
    if i < j {
      SameLeadIdIffSameRun(rows, i, j - 1);
      ChangesMonotone(rows, i, j - 1);
    }
  }

  lemma {:induction false} ChangesMonotone(rows: seq<JoinRow>, i: nat, j: nat)
    requires i <= j < |rows|
    ensures ChangesUpTo(rows, i) <= ChangesUpTo(rows, j)
    decreases j - i
  {
    if i < j {
      ChangesMonotone(rows, i, j - 1);
    }
  }

  // ---------------------------------------------------------------------------------
  // song_stats: lead counts per song and year, ranked within each year
  // ---------------------------------------------------------------------------------

  /** A row of SELECT DISTINCT lead_id, song_id, minutes.Year. */
  datatype LeadRow = LeadRow(leadId: int, song: int, year: int)

  /** A song_stats row. */
  datatype StatRow = StatRow(song: int, year: int, count: int, rank: int)

  /** How many lead rows are for song s in year y. */
  function Occurrences(leads: seq<LeadRow>, s: int, y: int): nat
    decreases |leads|
  {
    if leads == [] then 0
    else Occurrences(leads[..|leads| - 1], s, y) + (if leads[|leads| - 1].song == s && leads[|leads| - 1].year == y then 1 else 0)
  }

  function Product(songs: seq<int>, years: seq<int>): set<(int, int)> {
    set s, y | s in songs && y in years :: (s, y)
  }

  lemma ProductMembers(songs: seq<int>, years: seq<int>)
    ensures forall p: (int, int) :: p in Product(songs, years) <==> p.0 in songs && p.1 in years
  {
    forall p: (int, int) | p.0 in songs && p.1 in years
      ensures p in Product(songs, years)
    {
      var (a, b) := p;
      assert a in songs && b in years;
      assert (a, b) in Product(songs, years);
    }
  }

  /** The stats dict: every song and year, counted. */
  function CountMap(songs: seq<int>, years: seq<int>, leads: seq<LeadRow>): map<(int, int), nat> {
    map p | p in Product(songs, years) :: Occurrences(leads, p.0, p.1)
  }

  /** Every lead row names a song and a year the dict was set up with. */
  predicate LeadsKnown(songs: seq<int>, years: seq<int>, leads: seq<LeadRow>) {
    forall k :: 0 <= k < |leads| ==> leads[k].song in songs && leads[k].year in years
  }

  /**
   * Set every song's count to 0 for every year, then add 1 for each lead row; a row
   * for a song or year the dict does not have is a KeyError.
   */
  method CountLeads(songs: seq<int>, years: seq<int>, leads: seq<LeadRow>) returns (r: Outcome<map<(int, int), nat>>)
    ensures r.Ok? <==> LeadsKnown(songs, years, leads)
    ensures r.Err? ==> r.error == KeyError
    ensures r.Ok? ==> r.value == CountMap(songs, years, leads)
  {
    var stats: map<(int, int), nat> := map[];
    for i := 0 to |songs|
      invariant forall p: (int, int) :: p in stats <==> p.0 in songs[..i] && p.1 in years
      invariant forall p: (int, int) :: p in stats ==> stats[p] == 0
    {
      for j := 0 to |years|
        invariant forall p: (int, int) :: p in stats <==> (p.0 in songs[..i] && p.1 in years) || (p.0 == songs[i] && p.1 in years[..j])
        invariant forall p: (int, int) :: p in stats ==> stats[p] == 0
      {
        assert years[..j + 1] == years[..j] + [years[j]];
        stats := stats[(songs[i], years[j]) := 0];
      }
      assert songs[..i + 1] == songs[..i] + [songs[i]] && years[..|years|] == years;
    }
    assert songs[..|songs|] == songs;
    ProductMembers(songs, years);
    for k := 0 to |leads|
      invariant LeadsKnown(songs, years, leads[..k])
      invariant forall p: (int, int) :: p in stats <==> p.0 in songs && p.1 in years
      invariant forall p: (int, int) :: p in stats ==> stats[p] == Occurrences(leads[..k], p.0, p.1)
    {
      var key := (leads[k].song, leads[k].year);
      assert leads[..k + 1][..k] == leads[..k];
      if key !in stats {
        return Err(KeyError);
      }
      stats := stats[key := stats[key] + 1];
    }
    assert leads[..|leads|] == leads;
    assert stats == CountMap(songs, years, leads);
    return Ok(stats);
  }

  /** The song ids as dict keys: each once, in first-seen order. */
  function Distinct(xs: seq<int>): (r: seq<int>)
    ensures forall x :: x in r <==> x in xs
    ensures forall i, j :: 0 <= i < j < |r| ==> r[i] != r[j]
    decreases |xs|
  {
    if xs == [] then []
    else
      var init := xs[..|xs| - 1];
      assert xs == init + [xs[|xs| - 1]];
      Distinct(init) + (if xs[|xs| - 1] in init then [] else [xs[|xs| - 1]])
  }

  // Sorting: sorted(years) ascending, and each year's (count, song_id) list with
  // sort(reverse=True), that is descending in tuple order.

  predicate SortedAsc(s: seq<int>) {
    forall i, j :: 0 <= i < j < |s| ==> s[i] <= s[j]
  }

  /** A head no larger than the first element of a sorted list keeps it sorted. */
  lemma ConsAsc(a: int, t: seq<int>)
    requires SortedAsc(t) && (|t| > 0 ==> a <= t[0])
    ensures SortedAsc([a] + t)
  {
    var r := [a] + t;
    forall i, j | 0 <= i < j < |r|
      ensures r[i] <= r[j]
    {
      if i == 0 && j > 1 {
        assert t[0] <= t[j - 1];
      }
    }
  }

  function InsertAsc(x: int, s: seq<int>): (r: seq<int>)
    requires SortedAsc(s)
    ensures |r| == |s| + 1 && (r[0] == x || (|s| > 0 && r[0] == s[0]))
    ensures SortedAsc(r) && multiset(r) == multiset(s) + multiset{x}
  {
    if s == [] || x <= s[0] then
      ConsAsc(x, s);
      [x] + s
    else
      var rest := InsertAsc(x, s[1..]);
      assert s == [s[0]] + s[1..];
      assert multiset([s[0]] + rest) == multiset{s[0]} + multiset(rest);
      ConsAsc(s[0], rest);
      [s[0]] + rest
  }

  function SortAsc(s: seq<int>): (r: seq<int>)
    ensures SortedAsc(r) && multiset(r) == multiset(s)
  {
    if s == [] then []
    else
      assert s == [s[0]] + s[1..];
      InsertAsc(s[0], SortAsc(s[1..]))
  }

  /** Python's tuple order, a >= b. */
  predicate PairAtLeast(a: (int, int), b: (int, int)) {
    a.0 > b.0 || (a.0 == b.0 && a.1 >= b.1)
  }

  predicate SortedDesc(s: seq<(int, int)>) {
    forall i, j :: 0 <= i < j < |s| ==> PairAtLeast(s[i], s[j])
  }

  /** A head at least the first element of a descending list keeps it descending. */
  lemma ConsDesc(a: (int, int), t: seq<(int, int)>)
    requires SortedDesc(t) && (|t| > 0 ==> PairAtLeast(a, t[0]))
    ensures SortedDesc([a] + t)
  {
    var r := [a] + t;
    forall i, j | 0 <= i < j < |r|
      ensures PairAtLeast(r[i], r[j])
    {
      if i == 0 && j > 1 {
        assert PairAtLeast(t[0], t[j - 1]);
      }
    }
  }

  function InsertDesc(x: (int, int), s: seq<(int, int)>): (r: seq<(int, int)>)
    requires SortedDesc(s)
    ensures |r| == |s| + 1 && (r[0] == x || (|s| > 0 && r[0] == s[0]))
    ensures SortedDesc(r) && multiset(r) == multiset(s) + multiset{x}
  {
    if s == [] || PairAtLeast(x, s[0]) then
      ConsDesc(x, s);
      [x] + s
    else
      var rest := InsertDesc(x, s[1..]);
      assert s == [s[0]] + s[1..];
      assert multiset([s[0]] + rest) == multiset{s[0]} + multiset(rest);
      ConsDesc(s[0], rest);
      [s[0]] + rest
  }

  function SortDesc(s: seq<(int, int)>): (r: seq<(int, int)>)
    ensures SortedDesc(r) && multiset(r) == multiset(s)
  {
    if s == [] then []
    else
      assert s == [s[0]] + s[1..];
      InsertDesc(s[0], SortDesc(s[1..]))
  }

  /** The counts of a year's (count, song_id) list. */
  function Counts(data: seq<(int, int)>): (c: seq<int>)
    ensures |c| == |data| && forall i :: 0 <= i < |data| ==> c[i] == data[i].0
  {
    seq(|data|, i requires 0 <= i < |data| => data[i].0)
  }

  /** Where the run of equal counts that contains entry i begins. */
  function RunStart(counts: seq<int>, i: nat): nat
    requires i < |counts|
    decreases i
  {
    if i == 0 || counts[i] != counts[i - 1] then i else RunStart(counts, i - 1)
  }

  /** The run start is at or before the entry, the run holds equal counts, and it cannot extend further back. */
  lemma {:induction false} RunStartFacts(counts: seq<int>, i: nat)
    requires i < |counts|
    ensures RunStart(counts, i) <= i
    ensures forall j :: RunStart(counts, i) <= j <= i ==> counts[j] == counts[i]
    ensures RunStart(counts, i) == 0 || counts[RunStart(counts, i) - 1] != counts[RunStart(counts, i)]
    decreases i
  {
    if i > 0 && counts[i] == counts[i - 1] {
      RunStartFacts(counts, i - 1);
    }
  }

  /** A year's list with its ranks: entry i ranked one past the start of its run of equal counts. */
  function RankedRows(data: seq<(int, int)>, year: int): (rows: seq<StatRow>)
    ensures |rows| == |data|
  {
    seq(|data|, i requires 0 <= i < |data| => StatRow(data[i].1, year, data[i].0, RunStart(Counts(data), i) + 1))
  }

  /** The rank loop over one year's sorted list: rank becomes i + 1 whenever the count changes. */
  method RankYear(data: seq<(int, int)>, year: int) returns (rows: seq<StatRow>)
    ensures rows == RankedRows(data, year)
  {
    ghost var counts := Counts(data);
    ghost var ranked := RankedRows(data, year);
    var rank := 1;
    var lastCount := 0;
    rows := [];
    for i := 0 to |data|
      invariant rows == ranked[..i]
      invariant i == 0 ==> rank == 1 && lastCount == 0
      invariant i > 0 ==> rank == RunStart(counts, i - 1) + 1 && lastCount == counts[i - 1]
    {
      var count := data[i].0;
      assert count == counts[i];
      if count != lastCount {
        rank := i + 1;
      }
      assert rank == RunStart(counts, i) + 1;
      assert ranked[i] == StatRow(data[i].1, year, count, rank);
      assert ranked[..i + 1] == ranked[..i] + [ranked[i]];
      lastCount := count;
      rows := rows + [StatRow(data[i].1, year, count, rank)];
    }
    assert ranked[..|data|] == ranked;
  }

  /** Competition ranking ("1224"): in a descending list, rank - 1 entries have a larger count. */
  lemma RanksAreCompetition(data: seq<(int, int)>, i: nat)
    requires SortedDesc(data) && i < |data|
    ensures var b := RunStart(Counts(data), i);
            && b <= i
            && (forall j :: 0 <= j < b ==> data[j].0 > data[i].0)
            && (forall j :: b <= j < |data| ==> data[j].0 <= data[i].0)
  {
    var c := Counts(data);
    var b := RunStart(c, i);
    RunStartFacts(c, i);
    forall j | 0 <= j < b
      ensures data[j].0 > data[i].0
    {
      assert PairAtLeast(data[b - 1], data[b]);
      assert j == b - 1 || PairAtLeast(data[j], data[b - 1]);
    }
    forall j | b <= j < |data|
      ensures data[j].0 <= data[i].0
    {
      if j > i {
        assert PairAtLeast(data[i], data[j]);
      }
    }
  }

  /** Ranks start at 1, never decrease, and never exceed the position. */
  lemma {:induction false} RanksBounded(counts: seq<int>, i: nat)
    requires i < |counts|
    ensures i == 0 ==> RunStart(counts, i) == 0
    ensures i > 0 ==> RunStart(counts, i - 1) <= RunStart(counts, i)
    ensures RunStart(counts, i) + 1 <= i + 1
  {
    RunStartFacts(counts, i);
    if i > 0 {
      RunStartFacts(counts, i - 1);
    }
  }

  /** A year's (count, song_id) list, one entry per song. */
  function Entries(leads: seq<LeadRow>, songs: seq<int>, y: int): (e: seq<(int, int)>)
    ensures |e| == |songs| && forall i :: 0 <= i < |songs| ==> e[i] == (Occurrences(leads, songs[i], y), songs[i])
  {
    seq(|songs|, i requires 0 <= i < |songs| => (Occurrences(leads, songs[i], y) as int, songs[i]))
  }

  /** One year's song_stats rows: the songs by descending (count, id), each with its competition rank. */
  function YearRows(leads: seq<LeadRow>, songs: seq<int>, y: int): seq<StatRow> {
    RankedRows(SortDesc(Entries(leads, Distinct(songs), y)), y)
  }

  /** Every row of a year names a song of the table once, with that song's count for the year. */
  lemma YearRowsCounts(leads: seq<LeadRow>, songs: seq<int>, y: int)
    ensures |YearRows(leads, songs, y)| == |Distinct(songs)|
    ensures forall row :: row in YearRows(leads, songs, y) ==>
              row.song in songs && row.year == y && row.count == Occurrences(leads, row.song, y)
    ensures forall s :: s in songs ==> exists i :: 0 <= i < |YearRows(leads, songs, y)| && YearRows(leads, songs, y)[i].song == s
  {
    var e := Entries(leads, Distinct(songs), y);
    var data := SortDesc(e);
    var rows := YearRows(leads, songs, y);
    assert |data| == |multiset(data)| == |multiset(e)| == |e|;
    forall row | row in rows
      ensures row.song in songs && row.year == y && row.count == Occurrences(leads, row.song, y)
    {
      var i :| 0 <= i < |rows| && rows[i] == row;
      assert data[i] in multiset(e);
      var k :| 0 <= k < |e| && e[k] == data[i];
    }
    forall s | s in songs
      ensures exists i :: 0 <= i < |rows| && rows[i].song == s
    {
      var k :| 0 <= k < |Distinct(songs)| && Distinct(songs)[k] == s;
      assert e[k] in multiset(data);
      var i :| 0 <= i < |data| && data[i] == e[k];
      assert rows[i].song == s;
    }
  }

  /** The years the rank dict has, in ascending order: none at all when there are no songs. */
  function YearOrder(songs: seq<int>, years: seq<int>): seq<int> {
    if |songs| == 0 then [] else SortAsc(Distinct(years))
  }

  /** The song_stats rows, year after year. */
  function StatsRows(leads: seq<LeadRow>, songs: seq<int>, ys: seq<int>): seq<StatRow>
    decreases |ys|
  {
    if ys == [] then [] else StatsRows(leads, songs, ys[..|ys| - 1]) + YearRows(leads, songs, ys[|ys| - 1])
  }

  /** Every row has the count of its song and year, and names a song and a year of the lists given. */
  lemma {:induction false} StatsRowsCounts(leads: seq<LeadRow>, songs: seq<int>, ys: seq<int>)
    ensures forall row :: row in StatsRows(leads, songs, ys) ==>
              row.song in songs && row.year in ys && row.count == Occurrences(leads, row.song, row.year)
    decreases |ys|
  {
    if ys != [] {
      var init := ys[..|ys| - 1];
      StatsRowsCounts(leads, songs, init);
      YearRowsCounts(leads, songs, ys[|ys| - 1]);
      forall row | row in StatsRows(leads, songs, ys)
        ensures row.song in songs && row.year in ys && row.count == Occurrences(leads, row.song, row.year)
      {
        if row in StatsRows(leads, songs, init) {
          assert row.year in init;
          var k :| 0 <= k < |init| && init[k] == row.year;
          assert ys[k] == row.year;
        } else {
          assert row in YearRows(leads, songs, ys[|ys| - 1]);
        }
      }
    }
  }

  /** One year's rows: the dict's entries for the year, sorted, then ranked. */
  method YearValues(stats: map<(int, int), nat>, songs: seq<int>, leads: seq<LeadRow>, y: int)
    returns (rows: seq<StatRow>)
    requires forall s :: s in songs ==> (s, y) in stats && stats[(s, y)] == Occurrences(leads, s, y)
    ensures rows == YearRows(leads, songs, y)
  {
    var keys := Distinct(songs);
    var entries: seq<(int, int)> := [];
    for i := 0 to |keys|
      invariant entries == Entries(leads, keys, y)[..i]
    {
      entries := entries + [(stats[(keys[i], y)] as int, keys[i])];
    }
    assert entries == Entries(leads, keys, y);
    var data := SortDesc(entries);
    rows := RankYear(data, y);
  }

  /** The stats dict has every song's count for every year of the table. */
  lemma CountMapCovers(songs: seq<int>, years: seq<int>, leads: seq<LeadRow>, ys: seq<int>)
    requires forall y :: y in ys ==> y in years
    ensures forall y, s :: y in ys && s in songs ==>
              (s, y) in CountMap(songs, years, leads) && CountMap(songs, years, leads)[(s, y)] == Occurrences(leads, s, y)
  {
    ProductMembers(songs, years);
  }

  /** The rank dict's years are years of the table. */
  lemma YearOrderMembers(songs: seq<int>, years: seq<int>)
    ensures forall y :: y in YearOrder(songs, years) ==> y in years
  {
    if |songs| > 0 {
      var ys := SortAsc(Distinct(years));
      forall y | y in ys
        ensures y in years
      {
        assert y in multiset(ys);
      }
    }
  }

  /** The gather loop: each year's rows in turn, from a dict holding every count it reads. */
  method GatherRows(stats: map<(int, int), nat>, songs: seq<int>, leads: seq<LeadRow>, ys: seq<int>)
    returns (values: seq<StatRow>)
    requires forall y, s :: y in ys && s in songs ==> (s, y) in stats && stats[(s, y)] == Occurrences(leads, s, y)
    ensures values == StatsRows(leads, songs, ys)
  {
    values := [];
    for i := 0 to |ys|
      invariant values == StatsRows(leads, songs, ys[..i])
    {
      assert ys[..i + 1][..i] == ys[..i];
      var rows := YearValues(stats, songs, leads, ys[i]);
      values := values + rows;
    }
    assert ys[..|ys|] == ys;
  }

  /**
   * The song_stats computation: count the leads, then for each year of the rank dict
   * in ascending order, the year's rows. A lead row the dict does not know is a KeyError.
   */
  method SongStats(songs: seq<int>, years: seq<int>, leads: seq<LeadRow>) returns (r: Outcome<seq<StatRow>>)
    ensures r.Ok? <==> LeadsKnown(songs, years, leads)
    ensures r.Err? ==> r.error == KeyError
    ensures r.Ok? ==> r.value == StatsRows(leads, songs, YearOrder(songs, years))
  {
    var counted := CountLeads(songs, years, leads);
    if counted.Err? {
      return Err(counted.error);
    }
    var ys := YearOrder(songs, years);
    YearOrderMembers(songs, years);
    CountMapCovers(songs, years, leads, ys);
    var values := GatherRows(counted.value, songs, leads, ys);
    return Ok(values);
  }
}
