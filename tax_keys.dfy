/** The grouping key of a tax group and its parse into tax ids.

    The order groups its lines under a key that is the comma-joined list of
    the lines' tax ids ("" for lines without tax). The discount routine turns
    a key back into ids by `split(",")`, dropping empty pieces, then `Number`
    on each piece. */
module TaxKeys {
  import opened Seqs

  predicate IsDigit(c: char) {
    '0' <= c <= '9'
  }

  predicate AllDigits(s: string) {
    forall k :: 0 <= k < |s| ==> IsDigit(s[k])
  }

  /** A grouping key: decimal tax ids joined by commas. */
  predicate IsTaxKey(s: string) {
    forall k :: 0 <= k < |s| ==> IsDigit(s[k]) || s[k] == ','
  }

  /** `s.split(",")`: the pieces between commas, empty ones included. */
  function Split(s: string): (pieces: seq<string>)
    ensures |pieces| >= 1
    ensures forall k :: 0 <= k < |pieces| ==> ',' !in pieces[k]
    decreases |s|
  {
    if s == [] then [""]
    else if s[0] == ',' then [""] + Split(s[1..])
    else
      var rest := Split(s[1..]);
      [[s[0]] + rest[0]] + rest[1..]
  }

  /** `pieces.join(",")`. */
  function Join(pieces: seq<string>): string
    decreases |pieces|
  {
    if pieces == [] then ""
    else if |pieces| == 1 then pieces[0]
    else pieces[0] + [','] + Join(pieces[1..])
  }

  /** Every character of a piece comes from the split string. */
  lemma {:induction false} SplitChars(s: string)
    ensures forall k, c :: 0 <= k < |Split(s)| && c in Split(s)[k] ==> c in s
    decreases |s|
  {
    if s != [] {
      SplitChars(s[1..]);
      assert forall c :: c in s[1..] ==> c in s;
      if s[0] != ',' {
        var rest := Split(s[1..]);
        assert forall c :: c in [s[0]] + rest[0] ==> c == s[0] || c in rest[0];
        assert Split(s)[1..] == rest[1..];
      }
    }
  }

  /** Every character of a joined string is a comma or comes from a piece. */
  lemma {:induction false} JoinChars(pieces: seq<string>)
    ensures forall c :: c in Join(pieces) ==> c == ',' || exists k :: 0 <= k < |pieces| && c in pieces[k]
    decreases |pieces|
  {
    if |pieces| > 1 {
      JoinChars(pieces[1..]);
      forall c | c in Join(pieces) && c != ','
        ensures exists k :: 0 <= k < |pieces| && c in pieces[k]
      {
        if c !in pieces[0] {
          assert c in Join(pieces[1..]);
          var k :| 0 <= k < |pieces[1..]| && c in pieces[1..][k];
          assert c in pieces[k + 1];
        }
      }
    }
  }

  /** `join(",")` undoes `split(",")`. */
  lemma {:induction false} JoinSplit(s: string)
    ensures Join(Split(s)) == s
    decreases |s|
  {
    if s != [] {
      var rest := Split(s[1..]);
      JoinSplit(s[1..]);
      if s[0] == ',' {
        assert Split(s) == [""] + rest;
        assert Split(s)[1..] == rest;
      } else {
        var pieces := Split(s);
        assert pieces[1..] == rest[1..];
        if |rest| > 1 {
          assert Join(rest) == rest[0] + [','] + Join(rest[1..]);
        }
      }
    }
  }

  function DigitValue(c: char): (d: nat)
    requires IsDigit(c)
    ensures d < 10
  {
    c as int - '0' as int
  }

  function DigitChar(d: nat): (c: char)
    requires d < 10
    ensures IsDigit(c) && DigitValue(c) == d
  {
    (d + '0' as int) as char
  }

  /** `Number(piece)` for a piece made of decimal digits (leading zeros allowed). */
  function DecimalValue(s: string): nat
    requires AllDigits(s)
    decreases |s|
  {
    if s == [] then 0
    else 10 * DecimalValue(s[..|s| - 1]) + DigitValue(s[|s| - 1])
  }

  /** The decimal rendering of a tax id, as it appears inside a key. */
  function DecimalString(n: nat): (s: string)
    ensures |s| >= 1 && AllDigits(s)
    decreases n
  {
    if n < 10 then [DigitChar(n)]
    else DecimalString(n / 10) + [DigitChar(n % 10)]
  }

  function NonEmpty(): string -> bool {
    piece => piece != ""
  }

  /** The tax ids a key names: one per non-empty comma-separated piece, in key order. */
  function ParseTaxKey(key: string): (ids: seq<nat>)
    requires IsTaxKey(key)
    ensures (forall k :: 0 <= k < |key| ==> key[k] == ',') ==> ids == []
  {
    var pieces := Filter(Split(key), NonEmpty());
    SplitChars(key);
    assert forall k :: 0 <= k < |pieces| ==> AllDigits(pieces[k]) by {
      forall k | 0 <= k < |pieces| ensures AllDigits(pieces[k]) {
        assert pieces[k] in pieces;
        var j :| 0 <= j < |Split(key)| && Split(key)[j] == pieces[k];
        forall i | 0 <= i < |pieces[k]| ensures IsDigit(pieces[k][i]) {
          var c := pieces[k][i];
          assert c in Split(key)[j];
          assert c in key;
          var m :| 0 <= m < |key| && key[m] == c;
        }
      }
    }
    assert (forall k :: 0 <= k < |key| ==> key[k] == ',') ==> pieces == [] by {
      if forall k :: 0 <= k < |key| ==> key[k] == ',' {
        SplitCommas(key);
        FilterDropsAll(Split(key), NonEmpty());
      }
    }
    seq(|pieces|, k requires 0 <= k < |pieces| => DecimalValue(pieces[k]))
  }

  /** A string of commas alone splits into empty pieces only. */
  lemma {:induction false} SplitCommas(s: string)
    requires forall k :: 0 <= k < |s| ==> s[k] == ','
    ensures forall j :: 0 <= j < |Split(s)| ==> Split(s)[j] == ""
    decreases |s|
  {
    if s != [] {
      SplitCommas(s[1..]);
    }
  }

  /** The key the order builds for lines carrying the tax ids `ids`. */
  function TaxKeyOf(ids: seq<nat>): (key: string)
    ensures IsTaxKey(key)
    ensures |ids| == 0 <==> key == ""
  {
    var pieces := seq(|ids|, k requires 0 <= k < |ids| => DecimalString(ids[k]));
    var s := Join(pieces);
    JoinChars(pieces);
    assert IsTaxKey(s) by {
      forall i | 0 <= i < |s| ensures IsDigit(s[i]) || s[i] == ',' {
        assert s[i] in s;
        if s[i] != ',' {
          var k :| 0 <= k < |pieces| && s[i] in pieces[k];
          var j :| 0 <= j < |pieces[k]| && pieces[k][j] == s[i];
        }
      }
    }
    assert |ids| > 0 ==> s != "" by {
      if |ids| > 0 {
        assert |pieces| > 1 ==> Join(pieces) == pieces[0] + [','] + Join(pieces[1..]);
      }
    }
    s
  }

  /** `Number` undoes the decimal rendering of a tax id. */
  lemma {:induction false} DecimalRoundTrip(n: nat)
    ensures DecimalValue(DecimalString(n)) == n
    decreases n
  {
    if n >= 10 {
      var s := DecimalString(n);
      assert s[..|s| - 1] == DecimalString(n / 10);
      DecimalRoundTrip(n / 10);
    }
  }

  /** Splitting a string that starts with a comma-free prefix extends the first piece. */
  lemma {:induction false} SplitPrefix(a: string, s: string)
    requires ',' !in a
    ensures Split(a + s) == [a + Split(s)[0]] + Split(s)[1..]
    decreases |a|
  {
    if a != [] {
      assert (a + s)[0] == a[0];
      assert (a + s)[1..] == a[1..] + s;
      SplitPrefix(a[1..], s);
      assert [a[0]] + (a[1..] + Split(s)[0]) == a + Split(s)[0];
    } else {
      assert a + s == s;
      assert a + Split(s)[0] == Split(s)[0];
      assert Split(s) == [Split(s)[0]] + Split(s)[1..];
    }
  }

  /** `split(",")` undoes `join(",")` when no piece holds a comma. */
  lemma {:induction false} SplitJoin(pieces: seq<string>)
    requires |pieces| >= 1
    requires forall k :: 0 <= k < |pieces| ==> ',' !in pieces[k]
    ensures Split(Join(pieces)) == pieces
    decreases |pieces|
  {
    if |pieces| == 1 {
      SplitPrefix(pieces[0], "");
      assert pieces[0] + "" == pieces[0];
    } else {
      var tail := Join(pieces[1..]);
      SplitJoin(pieces[1..]);
      assert pieces[0] + [','] + tail == pieces[0] + ([','] + tail);
      SplitPrefix(pieces[0], [','] + tail);
      assert ([','] + tail)[1..] == tail;
      assert Split([','] + tail) == [""] + pieces[1..];
      assert pieces[0] + "" == pieces[0];
    }
  }

  /** Parsing the key built from `ids` gives back `ids`, in order; the empty
      key of untaxed lines gives the empty list ("No tax"). */
  lemma ParseTaxKeyOf(ids: seq<nat>)
    ensures ParseTaxKey(TaxKeyOf(ids)) == ids
  {
    var pieces := seq(|ids|, k requires 0 <= k < |ids| => DecimalString(ids[k]));
    var key := TaxKeyOf(ids);
    assert key == Join(pieces);
    if ids == [] {
      assert key == "";
      assert Split(key) == [""];
      assert ParseTaxKey(key) == [];
    } else {
      assert forall k :: 0 <= k < |pieces| ==> ',' !in pieces[k] by {
        forall k | 0 <= k < |pieces| ensures ',' !in pieces[k] {
          assert AllDigits(pieces[k]);
        }
      }
      SplitJoin(pieces);
      FilterKeepsAll(pieces, NonEmpty());
      var parsed := ParseTaxKey(key);
      assert |parsed| == |ids|;
      forall k | 0 <= k < |ids| ensures parsed[k] == ids[k] {
        DecimalRoundTrip(ids[k]);
      }
    }
  }

  /** Different tax-id lists are filed under different keys, so distinct keys
      and distinct tax-id lists are the same condition on a grouping. */
  lemma TaxKeyOfInjective(a: seq<nat>, b: seq<nat>)
    ensures TaxKeyOf(a) == TaxKeyOf(b) <==> a == b
  {
    ParseTaxKeyOf(a);
    ParseTaxKeyOf(b);
  }
}
