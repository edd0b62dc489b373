/** Text handling the source leaves to its standard library: trimming, comma lists, decimal numbers. */
module Text {
  import opened Basics

  /** The characters of Unicode's White_Space property. */
  predicate IsWhitespace(c: char) {
    var n := c as int;
    9 <= n <= 13 || n == 32 || n == 0x85 || n == 0xA0 || n == 0x1680 || 0x2000 <= n <= 0x200A
    || n == 0x2028 || n == 0x2029 || n == 0x202F || n == 0x205F || n == 0x3000
  }

  function TrimStart(s: string): string {
    if s != "" && IsWhitespace(s[0]) then TrimStart(s[1..]) else s
  }

  function TrimEnd(s: string): string {
    if s != "" && IsWhitespace(s[|s| - 1]) then TrimEnd(s[..|s| - 1]) else s
  }

  function Trim(s: string): string {
    TrimEnd(TrimStart(s))
  }

  predicate Trimmed(s: string) {
    s != "" ==> !IsWhitespace(s[0]) && !IsWhitespace(s[|s| - 1])
  }

  lemma {:induction false} TrimStartTrims(s: string)
    ensures var r := TrimStart(s); (r != "" ==> !IsWhitespace(r[0])) && forall c :: c in r ==> c in s
  {
    if s != "" && IsWhitespace(s[0]) {
      TrimStartTrims(s[1..]);
    }
  }

  lemma {:induction false} TrimEndTrims(s: string)
    ensures var r := TrimEnd(s);
            && (r != "" ==> r[0] == s[0] && !IsWhitespace(r[|r| - 1]))
            && |r| <= |s|
            && forall c :: c in r ==> c in s
  {
    if s != "" && IsWhitespace(s[|s| - 1]) {
      TrimEndTrims(s[..|s| - 1]);
    }
  }

  lemma TrimTrims(s: string)
    ensures Trimmed(Trim(s)) && forall c :: c in Trim(s) ==> c in s
  {
    TrimStartTrims(s);
    TrimEndTrims(TrimStart(s));
  }

  lemma TrimmedIsFixed(s: string)
    requires Trimmed(s)
    ensures Trim(s) == s
  {
  }

  function Lower(c: char): char {
    if 'A' <= c <= 'Z' then (c as int + 32) as char else c
  }

  /** `to_ascii_lowercase`. */
  function Lowered(s: string): string {
    seq(|s|, i requires 0 <= i < |s| => Lower(s[i]))
  }

  /** The pieces between commas; a text without commas is its own single piece. */
  function SplitCommas(s: string): seq<string> {
    if s == "" then [""]
    else
      var rest := SplitCommas(s[1..]);
      if s[0] == ',' then [""] + rest else [[s[0]] + rest[0]] + rest[1..]
  }

  function Kept(pieces: seq<string>): seq<string> {
    if pieces == [] then []
    else if Trim(pieces[0]) == "" then Kept(pieces[1..])
    else [Trim(pieces[0])] + Kept(pieces[1..])
  }

  /** `split_list`: the trimmed, non-empty pieces of a comma list. */
  function SplitList(raw: string): seq<string> {
    Kept(SplitCommas(raw))
  }

  function JoinCommas(items: seq<string>): string {
    if items == [] then ""
    else if |items| == 1 then items[0]
    else items[0] + "," + JoinCommas(items[1..])
  }

  /** An entry a comma list can carry without loss. */
  predicate Entry(s: string) {
    s != "" && Trimmed(s) && ',' !in s
  }

  lemma {:induction false} SplitPieces(s: string)
    ensures |SplitCommas(s)| >= 1 && forall i :: 0 <= i < |SplitCommas(s)| ==> ',' !in SplitCommas(s)[i]
  {
    if s != "" {
      SplitPieces(s[1..]);
    }
  }

  lemma {:induction false} KeptAreEntries(pieces: seq<string>)
    requires forall i :: 0 <= i < |pieces| ==> ',' !in pieces[i]
    ensures forall i :: 0 <= i < |Kept(pieces)| ==> Entry(Kept(pieces)[i])
  {
    if pieces != [] {
      TrimTrims(pieces[0]);
      KeptAreEntries(pieces[1..]);
    }
  }

  lemma SplitListGivesEntries(raw: string)
    ensures forall i :: 0 <= i < |SplitList(raw)| ==> Entry(SplitList(raw)[i])
  {
    SplitPieces(raw);
    KeptAreEntries(SplitCommas(raw));
  }

  lemma {:induction false} SplitAtFirstComma(head: string, tail: string)
    requires ',' !in head
    ensures SplitCommas(head) == [head]
    ensures SplitCommas(head + "," + tail) == [head] + SplitCommas(tail)
  {
    if head == "" {
      assert head + "," + tail == "," + tail;
    } else {
      SplitAtFirstComma(head[1..], tail);
      assert (head + "," + tail)[1..] == head[1..] + "," + tail;
      assert [head[0]] + head[1..] == head;
    }
  }

  /** Joining a list and splitting it again gives it back. */
  lemma {:induction false} SplitUndoesJoin(items: seq<string>)
    requires items != [] && forall i :: 0 <= i < |items| ==> Entry(items[i])
    ensures SplitList(JoinCommas(items)) == items
  {
    TrimmedIsFixed(items[0]);
    if |items| == 1 {
      SplitAtFirstComma(items[0], "");
      assert Kept([items[0]]) == [items[0]] + Kept([]);
    } else {
      SplitAtFirstComma(items[0], JoinCommas(items[1..]));
      SplitUndoesJoin(items[1..]);
      var pieces := [items[0]] + SplitCommas(JoinCommas(items[1..]));
      assert pieces[1..] == SplitCommas(JoinCommas(items[1..]));
    }
  }

  // ---- Decimal numbers ----

  predicate IsDigit(c: char) { '0' <= c <= '9' }

  function DigitValue(c: char): nat
    requires IsDigit(c)
  {
    c as int - '0' as int
  }

  function Digits(s: string): Option<nat> {
    if s == "" then Some(0)
    else if !IsDigit(s[|s| - 1]) then None
    else
      var rest := Digits(s[..|s| - 1]);
      if rest.None? then None else Some(10 * rest.value + DigitValue(s[|s| - 1]))
  }

  /** `str::parse::<u32>`: decimal digits, at least one, an optional plus sign, and no overflow. */
  function ParseU32(s: string): Option<nat> {
    var body := if s != "" && s[0] == '+' then s[1..] else s;
    if body == "" then None
    else
      var n := Digits(body);
      if n.Some? && n.value < 0x1_0000_0000 then n else None
  }

  function PrintNat(n: nat): string {
    var digit := ('0' as int + n % 10) as char;
    if n < 10 then [digit] else PrintNat(n / 10) + [digit]
  }

  lemma {:induction false} PrintedDigits(n: nat)
    ensures PrintNat(n) != "" && IsDigit(PrintNat(n)[0]) && Digits(PrintNat(n)) == Some(n)
  {
    if n < 10 {
      assert PrintNat(n)[..0] == "";
    } else {
      PrintedDigits(n / 10);
      assert PrintNat(n)[..|PrintNat(n)| - 1] == PrintNat(n / 10);
    }
  }

  lemma ParseUndoesPrint(n: nat)
    requires n < 0x1_0000_0000
    ensures ParseU32(PrintNat(n)) == Some(n)
  {
    PrintedDigits(n);
  }
}
