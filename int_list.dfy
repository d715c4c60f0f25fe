// Comma-separated integer parsing of nodes.py (`parse_string_to_int_list`).
//
// The string is split on ',', every field is stripped of surrounding white
// space and converted with Python's `int()`; one bad field makes the whole
// result the empty list. Only ASCII white space and the plain decimal form
// of `int()` (optional sign, at least one digit) are modelled.

module IntList {
  datatype Option<T> = None | Some(value: T)

  /**
   * The characters `str.strip()` removes, restricted to ASCII: space, tab,
   * line feed, carriage return, vertical tab, form feed and the four
   * separators 0x1C..0x1F.
   */
  predicate IsSpace(c: char) {
    c == ' ' || c == '\t' || c == '\n' || c == '\r' || c as int == 11 || c as int == 12
    || 28 <= c as int <= 31
  }

  predicate IsDigit(c: char) {
    '0' <= c <= '9'
  }

  predicate AllSpace(s: string) {
    forall i | 0 <= i < |s| :: IsSpace(s[i])
  }

  // ---------------------------------------------------------------------
  // Splitting on the separator
  // ---------------------------------------------------------------------

  /** Joins the fields with one separator between neighbours (`sep.join`). */
  function JoinWith(fields: seq<string>, sep: char): (s: string)
    requires |fields| > 0
    ensures |s| >= |fields[0]|
  {
    if |fields| == 1 then fields[0] else fields[0] + [sep] + JoinWith(fields[1..], sep)
  }

  /** The join starts with the first field, then a separator when more fields follow. */
  lemma JoinPrefix(fields: seq<string>, sep: char)
    requires |fields| > 0
    ensures forall k | 0 <= k < |fields[0]| :: JoinWith(fields, sep)[k] == fields[0][k]
    ensures |fields| > 1 ==>
      |JoinWith(fields, sep)| > |fields[0]| && JoinWith(fields, sep)[|fields[0]|] == sep &&
      JoinWith(fields, sep)[|fields[0]| + 1..] == JoinWith(fields[1..], sep)
  {
    if |fields| > 1 {
      var f0 := fields[0];
      var r := JoinWith(fields[1..], sep);
      assert JoinWith(fields, sep) == f0 + [sep] + r;
      assert (f0 + [sep] + r)[|f0| + 1..] == r;
    }
  }

  predicate SeparatorFree(fields: seq<string>, sep: char) {
    forall i | 0 <= i < |fields| :: sep !in fields[i]
  }

  /**
   * `str.split(sep)` with an explicit one-character separator: the pieces
   * contain no separator and joining them back gives the string, so they
   * are the maximal separator-free pieces, empty ones included.
   */
  function Split(s: string, sep: char): (fields: seq<string>)
    ensures |fields| > 0
    ensures SeparatorFree(fields, sep)
    ensures JoinWith(fields, sep) == s
  {
    if |s| == 0 then [""]
    else
      var rest := Split(s[1..], sep);
      assert s == [s[0]] + s[1..];
      if s[0] == sep then
        JoinAfterSeparator(rest, sep);
        [""] + rest
      else
        JoinAfterChar(s[0], rest, sep);
        [[s[0]] + rest[0]] + rest[1..]
  }

  /** A separator in front of the join starts a new, empty, first field. */
  lemma JoinAfterSeparator(rest: seq<string>, sep: char)
    requires |rest| > 0 && SeparatorFree(rest, sep)
    ensures SeparatorFree([""] + rest, sep)
    ensures JoinWith([""] + rest, sep) == [sep] + JoinWith(rest, sep)
  {
    var fields := [""] + rest;
    assert fields[1..] == rest;
    assert forall i | 1 <= i < |fields| :: fields[i] == rest[i - 1];
  }

  /** Any other character in front of the join extends the first field. */
  lemma JoinAfterChar(c: char, rest: seq<string>, sep: char)
    requires c != sep && |rest| > 0 && SeparatorFree(rest, sep)
    ensures SeparatorFree([[c] + rest[0]] + rest[1..], sep)
    ensures JoinWith([[c] + rest[0]] + rest[1..], sep) == [c] + JoinWith(rest, sep)
  {
    var f0 := [c] + rest[0];
    var fields := [f0] + rest[1..];
    assert sep !in rest[0];
    assert sep !in f0;
    assert forall i | 1 <= i < |fields| :: fields[i] == rest[i];
    if |rest| > 1 {
      var tail := JoinWith(rest[1..], sep);
      assert fields[1..] == rest[1..];
      assert JoinWith(fields, sep) == f0 + [sep] + tail;
      assert JoinWith(rest, sep) == rest[0] + [sep] + tail;
      assert f0 + [sep] + tail == [c] + (rest[0] + [sep] + tail);
    }
  }

  /** Two separator-free field lists with the same join are equal. */
  lemma {:induction false} JoinUnique(a: seq<string>, b: seq<string>, sep: char)
    requires |a| > 0 && |b| > 0 && SeparatorFree(a, sep) && SeparatorFree(b, sep)
    requires JoinWith(a, sep) == JoinWith(b, sep)
    ensures a == b
    decreases |a|
  {
    var s := JoinWith(a, sep);
    JoinPrefix(a, sep);
    JoinPrefix(b, sep);
    if |a| == 1 && |b| == 1 {
      assert a == [a[0]] && b == [b[0]];
    } else if |a| > 1 && |b| > 1 && |a[0]| == |b[0]| {
      assert a[0] == b[0];
      JoinUnique(a[1..], b[1..], sep);
      assert a == [a[0]] + a[1..] && b == [b[0]] + b[1..];
    } else {
      assert false;
    }
  }

  /** Splitting undoes joining separator-free fields. */
  lemma SplitJoin(fields: seq<string>, sep: char)
    requires |fields| > 0 && SeparatorFree(fields, sep)
    ensures Split(JoinWith(fields, sep), sep) == fields
  {
    JoinUnique(Split(JoinWith(fields, sep), sep), fields, sep);
  }

  // ---------------------------------------------------------------------
  // Stripping white space
  // ---------------------------------------------------------------------

  /** The first index from `i` on that is not white space, or `|s|`. */
  function SkipSpaces(s: string, i: int): (j: int)
    requires 0 <= i <= |s|
    ensures i <= j <= |s|
    ensures forall k | i <= k < j :: IsSpace(s[k])
    ensures j == |s| || !IsSpace(s[j])
    decreases |s| - i
  {
    if i < |s| && IsSpace(s[i]) then SkipSpaces(s, i + 1) else i
  }

  /** The end of `s[lo..j]` once the white space at its end is dropped. */
  function BackSpaces(s: string, lo: int, j: int): (h: int)
    requires 0 <= lo <= j <= |s|
    ensures lo <= h <= j
    ensures forall k | h <= k < j :: IsSpace(s[k])
    ensures h == lo || !IsSpace(s[h - 1])
    decreases j
  {
    if j > lo && IsSpace(s[j - 1]) then BackSpaces(s, lo, j - 1) else j
  }

  /** Neither starts nor ends with white space. */
  predicate Stripped(t: string) {
    |t| == 0 || (!IsSpace(t[0]) && !IsSpace(t[|t| - 1]))
  }

  /**
   * `str.strip()`: `s` without the white space at its two ends. The result
   * sits in `s` after white space only and is followed by white space only.
   */
  function Strip(s: string): (t: string)
    ensures Stripped(t)
    ensures var i := SkipSpaces(s, 0);
      i + |t| <= |s| && s[i..i + |t|] == t &&
      (forall k | 0 <= k < i :: IsSpace(s[k])) &&
      (forall k | i + |t| <= k < |s| :: IsSpace(s[k]))
  {
    var lo := SkipSpaces(s, 0);
    s[lo..BackSpaces(s, lo, |s|)]
  }

  /** `SkipSpaces` stops at the first non-space. */
  lemma {:induction false} SkipSpacesTo(s: string, i: int, j: int)
    requires 0 <= i <= j <= |s|
    requires forall k | i <= k < j :: IsSpace(s[k])
    requires j == |s| || !IsSpace(s[j])
    ensures SkipSpaces(s, i) == j
    decreases j - i
  {
    if i < j {
      SkipSpacesTo(s, i + 1, j);
    }
  }

  /** `BackSpaces` stops after the last non-space. */
  lemma {:induction false} BackSpacesTo(s: string, lo: int, h: int, j: int)
    requires 0 <= lo <= h <= j <= |s|
    requires forall k | h <= k < j :: IsSpace(s[k])
    requires h == lo || !IsSpace(s[h - 1])
    ensures BackSpaces(s, lo, j) == h
    decreases j
  {
    if h < j {
      BackSpacesTo(s, lo, h, j - 1);
    }
  }

  /** Stripping a padded stripped string gives it back. */
  lemma StripPadded(pre: string, t: string, post: string)
    requires AllSpace(pre) && AllSpace(post) && Stripped(t)
    ensures Strip(pre + t + post) == t
  {
    var s := pre + t + post;
    var lo, hi := |pre|, |pre| + |t|;
    assert forall k | 0 <= k < lo :: s[k] == pre[k];
    assert forall k | hi <= k < |s| :: s[k] == post[k - hi];
    if |t| == 0 {
      SkipSpacesTo(s, 0, |s|);
      BackSpacesTo(s, |s|, |s|, |s|);
    } else {
      assert s[lo] == t[0] && s[hi - 1] == t[|t| - 1];
      SkipSpacesTo(s, 0, lo);
      BackSpacesTo(s, lo, hi, |s|);
      assert s[lo..hi] == t;
    }
  }

  // ---------------------------------------------------------------------
  // int() on one stripped field
  // ---------------------------------------------------------------------

  /** A non-empty run of decimal digits. */
  predicate IsNumeral(t: string) {
    |t| > 0 && forall i | 0 <= i < |t| :: IsDigit(t[i])
  }

  function DigitValue(c: char): (d: nat)
    requires IsDigit(c)
    ensures d < 10
  {
    c as int - '0' as int
  }

  /** The value of a digit run, most significant digit first. */
  function DigitsValue(ds: string): nat
    requires forall i | 0 <= i < |ds| :: IsDigit(ds[i])
  {
    if |ds| == 0 then 0
    else DigitsValue(ds[..|ds| - 1]) * 10 + DigitValue(ds[|ds| - 1])
  }

  /**
   * Python's `int()` on a stripped field: an optional '+' or '-' followed
   * by at least one decimal digit; anything else is a `ValueError`.
   */
  function ParseInt(t: string): (r: Option<int>)
    ensures r.Some? <==> IsNumeral(t) || (|t| > 1 && (t[0] == '+' || t[0] == '-') && IsNumeral(t[1..]))
    ensures r.Some? && |t| > 0 && t[0] == '-' ==> r.value <= 0
    ensures r.Some? && |t| > 0 && t[0] != '-' ==> r.value >= 0
  {
    if |t| > 1 && t[0] == '-' && IsNumeral(t[1..]) then Some(0 - DigitsValue(t[1..]) as int)
    else if |t| > 1 && t[0] == '+' && IsNumeral(t[1..]) then Some(DigitsValue(t[1..]))
    else if IsNumeral(t) then Some(DigitsValue(t))
    else None
  }

  function Digit(d: nat): (c: char)
    requires d < 10
    ensures IsDigit(c) && DigitValue(c) == d
  {
    ('0' as int + d) as char
  }

  /** Decimal notation of a natural number, without leading zeros. */
  function NatToString(n: nat): (s: string)
    ensures IsNumeral(s) && (|s| > 1 ==> s[0] != '0')
  {
    if n < 10 then [Digit(n)] else NatToString(n / 10) + [Digit(n % 10)]
  }

  /** `str(n)` for an integer. */
  function Show(n: int): (s: string)
    ensures |s| > 0 && (s[0] == '-' || IsDigit(s[0]))
    ensures forall i | 0 <= i < |s| :: s[i] == '-' || IsDigit(s[i])
  {
    if n < 0 then "-" + NatToString(-n) else NatToString(n)
  }

  lemma {:induction false} DigitsOfNat(n: nat)
    ensures DigitsValue(NatToString(n)) == n
    decreases n
  {
    if n >= 10 {
      var s := NatToString(n);
      assert s[..|s| - 1] == NatToString(n / 10);
      DigitsOfNat(n / 10);
    }
  }

  /** `int(str(n)) == n`. */
  lemma ParseShow(n: int)
    ensures ParseInt(Show(n)) == Some(n)
  {
    if n < 0 {
      assert Show(n)[1..] == NatToString(-n);
      DigitsOfNat(-n);
    } else {
      DigitsOfNat(n);
    }
  }

  /** A '+' sign does not change the value of a numeral. */
  lemma ParseIntPlus(t: string)
    requires IsNumeral(t)
    ensures ParseInt("+" + t) == ParseInt(t)
  {
    assert ("+" + t)[1..] == t;
  }

  /** A '-' sign negates the value of a numeral. */
  lemma ParseIntMinus(t: string)
    requires IsNumeral(t)
    ensures ParseInt("-" + t).Some? && ParseInt("-" + t).value == -ParseInt(t).value
  {
    assert ("-" + t)[1..] == t;
  }

  /** A leading zero adds nothing to a digit run. */
  lemma {:induction false} LeadingZeroValue(ds: string)
    requires forall i | 0 <= i < |ds| :: IsDigit(ds[i])
    ensures DigitsValue("0" + ds) == DigitsValue(ds)
    decreases |ds|
  {
    var z := "0" + ds;
    if |ds| == 0 {
      assert z[..|z| - 1] == "";
    } else {
      assert z[..|z| - 1] == "0" + ds[..|ds| - 1];
      LeadingZeroValue(ds[..|ds| - 1]);
    }
  }

  /** Leading zeros are accepted and do not change the value: `int("007") == 7`. */
  lemma ParseIntLeadingZero(t: string)
    requires IsNumeral(t)
    ensures ParseInt("0" + t) == ParseInt(t)
  {
    LeadingZeroValue(t);
  }

  // ---------------------------------------------------------------------
  // parse_string_to_int_list
  // ---------------------------------------------------------------------

  /**
   * `int(num.strip())` for one comma-separated field: a field of white
   * space only is rejected, and an accepted field is a numeral padded with
   * white space on both sides.
   */
  function FieldValue(field: string): (r: Option<int>)
    ensures AllSpace(field) ==> r.None?
    ensures r.Some? ==> exists i, j | 0 <= i <= j <= |field| ::
      AllSpace(field[..i]) && ParseInt(field[i..j]) == r && AllSpace(field[j..])
  {
    var t := Strip(field);
    var i := SkipSpaces(field, 0);
    assert AllSpace(field[..i]) && field[i..i + |t|] == t && AllSpace(field[i + |t|..]);
    ParseInt(t)
  }

  /** Every field must parse; the first failure spoils the whole list. */
  function ParseAll(fields: seq<string>, parse: string -> Option<int>): (r: Option<seq<int>>)
    ensures r.Some? ==> |r.value| == |fields|
  {
    if |fields| == 0 then Some([])
    else
      match (parse(fields[0]), ParseAll(fields[1..], parse))
      case (Some(n), Some(ns)) => Some([n] + ns)
      case _ => None
  }

  /** The fields parse together exactly when each one parses, and then field by field. */
  lemma {:induction false} ParseAllOrNothing(fields: seq<string>, parse: string -> Option<int>)
    ensures ParseAll(fields, parse).Some? <==> forall i | 0 <= i < |fields| :: parse(fields[i]).Some?
    ensures ParseAll(fields, parse).Some? ==>
      forall i | 0 <= i < |fields| :: parse(fields[i]) == Some(ParseAll(fields, parse).value[i])
    decreases |fields|
  {
    if |fields| > 0 {
      var rest := fields[1..];
      ParseAllOrNothing(rest, parse);
      assert forall i | 1 <= i < |fields| :: fields[i] == rest[i - 1];
      var r := ParseAll(fields, parse);
      if r.Some? {
        var ns := ParseAll(rest, parse).value;
        assert r.value == [parse(fields[0]).value] + ns;
        forall i | 0 <= i < |fields|
          ensures parse(fields[i]) == Some(r.value[i])
        {
          if i > 0 {
            assert r.value[i] == ns[i - 1];
          }
        }
      }
    }
  }

  /**
   * `parse_string_to_int_list`: `None` and the empty string give the empty
   * list; otherwise the value of every stripped comma-separated field, in
   * order, or the empty list as soon as one field is not an integer.
   */
  function ParseIntList(s: Option<string>): (r: seq<int>)
    ensures s.None? || s.value == "" ==> r == []
    ensures s.Some? && s.value != "" && (forall i | 0 <= i < |Split(s.value, ',')| :: FieldValue(Split(s.value, ',')[i]).Some?) ==>
      |r| == |Split(s.value, ',')| &&
      forall i | 0 <= i < |r| :: FieldValue(Split(s.value, ',')[i]) == Some(r[i])
    ensures s.Some? && (exists i | 0 <= i < |Split(s.value, ',')| :: FieldValue(Split(s.value, ',')[i]).None?) ==>
      r == []
  {
    if s.None? || s.value == "" then []
    else
      ParseAllOrNothing(Split(s.value, ','), FieldValue);
      match ParseAll(Split(s.value, ','), FieldValue)
      case Some(ns) => ns
      case None => []
  }

  /** A decimal notation carries no white space, so stripping keeps it. */
  lemma StripShow(n: int)
    ensures Strip(Show(n)) == Show(n)
  {
    var s := Show(n);
    assert !IsSpace(s[0]) && !IsSpace(s[|s| - 1]);
    StripPadded("", s, "");
    assert "" + s + "" == s;
  }

  /** Decimal notations of a list of integers. */
  function Shows(xs: seq<int>): (fs: seq<string>)
    ensures |fs| == |xs| && forall i | 0 <= i < |xs| :: fs[i] == Show(xs[i])
  {
    seq(|xs|, i requires 0 <= i < |xs| => Show(xs[i]))
  }

  /** A list of fields that all parse gives the list of their values. */
  lemma ParseIntListOf(s: string, fs: seq<string>, ns: seq<int>)
    requires s != "" && Split(s, ',') == fs && |fs| == |ns|
    requires forall i | 0 <= i < |ns| :: FieldValue(fs[i]) == Some(ns[i])
    ensures ParseIntList(Some(s)) == ns
  {
    var r := ParseIntList(Some(s));
    assert |r| == |ns| && forall i | 0 <= i < |ns| :: Some(r[i]) == Some(ns[i]);
  }

  /** `int(str(n)) == n` also through the stripping of the field. */
  lemma FieldShow(n: int)
    ensures FieldValue(Show(n)) == Some(n)
  {
    StripShow(n);
    ParseShow(n);
  }

  /** Parsing `",".join(str(x) for x in xs)` gives back `xs`. */
  lemma ParseJoinedInts(xs: seq<int>)
    requires |xs| > 0
    ensures ParseIntList(Some(JoinWith(Shows(xs), ','))) == xs
  {
    var fs := Shows(xs);
    var s := JoinWith(fs, ',');
    assert SeparatorFree(fs, ',');
    SplitJoin(fs, ',');
    assert |s| >= |fs[0]| > 0;
    forall i | 0 <= i < |fs|
      ensures FieldValue(fs[i]) == Some(xs[i])
    {
      FieldShow(xs[i]);
    }
    ParseIntListOf(s, fs, xs);
  }

  /**
   * A blank field spoils the whole list: whenever one of the comma-separated
   * fields is empty or white space only, as in `"1,,2"`, the result is `[]`.
   */
  lemma BlankFieldRejects(fields: seq<string>, k: int)
    requires |fields| > 0 && SeparatorFree(fields, ',')
    requires 0 <= k < |fields| && AllSpace(fields[k])
    ensures ParseIntList(Some(JoinWith(fields, ','))) == []
  {
    SplitJoin(fields, ',');
    assert FieldValue(fields[k]).None?;
  }
}
