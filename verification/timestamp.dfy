/** The directory name a finished recording is renamed to: the ISO-8601 instant of
    finalization with the date/time separator `T` turned into `_`, every `:` turned
    into `-`, and a trailing `.sssZ` (milliseconds and zone designator) removed. */
module Timestamp {

  /** The index of the first `T` in `s`, or `|s|` when there is none. */
  function FirstT(s: string): (i: nat)
    ensures i <= |s|
    ensures forall k :: 0 <= k < i ==> s[k] != 'T'
    ensures i < |s| ==> s[i] == 'T'
  {
    if |s| == 0 then 0 else if s[0] == 'T' then 0 else 1 + FirstT(s[1..])
  }

  /** `s.replace(/T/, "_")`: only the first `T` is replaced. */
  function ReplaceFirstT(s: string): (r: string)
    ensures |r| == |s|
    ensures forall i :: 0 <= i < |s| ==> r[i] == (if i == FirstT(s) then '_' else s[i])
  {
    if |s| == 0 then s
    else if s[0] == 'T' then "_" + s[1..]
    else [s[0]] + ReplaceFirstT(s[1..])
  }

  /** `s.replace(/:/g, "-")`: every colon becomes a hyphen, nothing else changes. */
  function ReplaceColons(s: string): (r: string)
    ensures |r| == |s|
    ensures forall i :: 0 <= i < |s| ==> r[i] == (if s[i] == ':' then '-' else s[i])
    ensures ':' !in r
  {
    seq(|s|, i requires 0 <= i < |s| => if s[i] == ':' then '-' else s[i])
  }

  /** Whether `s` ends with a dot, three decimal digits and `Z`, the pattern
      `/\.\d{3}Z$/`. */
  predicate EndsWithMillis(s: string) {
    |s| >= 5 && s[|s| - 5] == '.' && IsDigit(s[|s| - 4]) && IsDigit(s[|s| - 3])
    && IsDigit(s[|s| - 2]) && s[|s| - 1] == 'Z'
  }

  predicate IsDigit(c: char) {
    '0' <= c <= '9'
  }

  /** `s.replace(/\.\d{3}Z$/, "")`. */
  function StripMillis(s: string): (r: string)
    ensures EndsWithMillis(s) ==> |r| == |s| - 5 && s == r + s[|s| - 5..]
    ensures !EndsWithMillis(s) ==> r == s
  {
    if EndsWithMillis(s) then s[..|s| - 5] else s
  }

  /** The directory name derived from the output of `Date.prototype.toISOString`. */
  function TimestampName(iso: string): (r: string)
    ensures ':' !in r
    ensures |r| == |iso| || |r| == |iso| - 5
  {
    StripMillis(ReplaceColons(ReplaceFirstT(iso)))
  }

  /** The shape `Date.prototype.toISOString` produces for years 0 to 9999:
      `YYYY-MM-DDTHH:mm:ss.sssZ`. */
  predicate IsIsoInstant(s: string) {
    |s| == 24
    && IsDigit(s[0]) && IsDigit(s[1]) && IsDigit(s[2]) && IsDigit(s[3]) && s[4] == '-'
    && IsDigit(s[5]) && IsDigit(s[6]) && s[7] == '-' && IsDigit(s[8]) && IsDigit(s[9])
    && s[10] == 'T' && IsDigit(s[11]) && IsDigit(s[12]) && s[13] == ':'
    && IsDigit(s[14]) && IsDigit(s[15]) && s[16] == ':' && IsDigit(s[17]) && IsDigit(s[18])
    && s[19] == '.' && IsDigit(s[20]) && IsDigit(s[21]) && IsDigit(s[22]) && s[23] == 'Z'
  }

  /** The character the name holds at position `i` of a well-formed instant. */
  function NameChar(iso: string, i: nat): char
    requires i < |iso|
  {
    if i == 10 then '_' else if iso[i] == ':' then '-' else iso[i]
  }

  /** The first `T` of a well-formed instant is the date/time separator. */
  lemma FirstTOfInstant(iso: string)
    requires IsIsoInstant(iso)
    ensures FirstT(iso) == 10
  {
    assert FirstT(iso) <= 10;
    assert iso[0] != 'T' && iso[1] != 'T' && iso[2] != 'T' && iso[3] != 'T' && iso[4] != 'T';
    assert iso[5] != 'T' && iso[6] != 'T' && iso[7] != 'T' && iso[8] != 'T' && iso[9] != 'T';
  }

  /** Before the milliseconds are cut, every position holds its `NameChar`. */
  lemma SeparatorsReplaced(iso: string)
    requires IsIsoInstant(iso)
    ensures |ReplaceColons(ReplaceFirstT(iso))| == 24
    ensures forall i :: 0 <= i < 24 ==> ReplaceColons(ReplaceFirstT(iso))[i] == NameChar(iso, i)
  {
    FirstTOfInstant(iso);
    var t := ReplaceFirstT(iso);
    var c := ReplaceColons(t);
    forall i | 0 <= i < 24
      ensures c[i] == NameChar(iso, i)
    {
      assert t[i] == if i == 10 then '_' else iso[i];
    }
  }


  /** On a well-formed instant the name is `YYYY-MM-DD_HH-mm-ss`: the instant cut to
      whole seconds, `T` turned into `_` and the two colons into `-`. */
  lemma TimestampShape(iso: string)
    requires IsIsoInstant(iso)
    ensures |TimestampName(iso)| == 19
    ensures forall i :: 0 <= i < 19 ==>
      TimestampName(iso)[i] == (if i == 10 then '_' else if i == 13 || i == 16 then '-' else iso[i])
  {
    SeparatorsReplaced(iso);
    var c := ReplaceColons(ReplaceFirstT(iso));
    assert EndsWithMillis(c) by {
      assert c[19] == NameChar(iso, 19) && c[20] == NameChar(iso, 20);
      assert c[21] == NameChar(iso, 21) && c[22] == NameChar(iso, 22);
      assert c[23] == NameChar(iso, 23);
    }
    var n := TimestampName(iso);
    assert n == c[..19];
    forall i | 0 <= i < 19
      ensures n[i] == (if i == 10 then '_' else if i == 13 || i == 16 then '-' else iso[i])
    {
      assert n[i] == NameChar(iso, i);
    }
  }

  /** Two finalizations get the same directory name exactly when they fall within the
      same second: the name keeps everything up to the seconds and nothing after. */
  lemma TimestampNameCollides(a: string, b: string)
    requires IsIsoInstant(a) && IsIsoInstant(b)
    ensures TimestampName(a) == TimestampName(b) <==> a[..19] == b[..19]
  {
    TimestampShape(a);
    TimestampShape(b);
    var na := TimestampName(a);
    var nb := TimestampName(b);
    if na == nb {
      forall i | 0 <= i < 19
        ensures a[i] == b[i]
      {
        if i !in {4, 7, 10, 13, 16} {
          assert na[i] == a[i] && nb[i] == b[i];
        }
      }
      assert a[..19] == b[..19];
    }
    if a[..19] == b[..19] {
      forall i | 0 <= i < 19
        ensures na[i] == nb[i]
      {
        assert a[..19][i] == b[..19][i];
      }
    }
  }

  /** Any string laid out as the shape lemma describes is the name of the instant. */
  lemma NameMatches(iso: string, name: string)
    requires IsIsoInstant(iso)
    requires |name| == 19
    requires forall i :: 0 <= i < 19 ==>
      name[i] == (if i == 10 then '_' else if i == 13 || i == 16 then '-' else iso[i])
    ensures TimestampName(iso) == name
  {
    TimestampShape(iso);
  }

  /** A concrete instant and the directory it names. */
  lemma TimestampExample()
    ensures IsIsoInstant("2024-01-02T03:04:05.678Z")
    ensures TimestampName("2024-01-02T03:04:05.678Z") == "2024-01-02_03-04-05"
  {
    assert IsIsoInstant("2024-01-02T03:04:05.678Z");
    NameMatches("2024-01-02T03:04:05.678Z", "2024-01-02_03-04-05");
  }
}
