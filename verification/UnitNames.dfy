/**
 The systemd unit name of a job label: an escaping that can be undone, so that different labels
 never share a unit. The rules are those of "String Escaping for Inclusion in Unit Names" in
 systemd.unit(5).
 */
module UnitNames {

  type Octet = b: int | 0 <= b < 256

  const SLASH: Octet := 47
  const DOT: Octet := 46

  /** The characters an escaped name keeps as they are. */
  predicate IsKept(c: char)
  {
    'A' <= c <= 'Z' || 'a' <= c <= 'z' || '0' <= c <= '9' || c == ':' || c == '_' || c == '.'
  }

  function HexDigit(d: int): (r: char)
    requires 0 <= d < 16
    ensures '0' <= r <= '9' || 'a' <= r <= 'f'
  {
    if d < 10 then (48 + d) as char else (87 + d) as char
  }

  function HexValue(c: char): HexReading
  {
    if '0' <= c <= '9' then Digit(c as int - 48) else if 'a' <= c <= 'f' then Digit(c as int - 87) else NoDigit
  }

  datatype HexReading = NoDigit | Digit(value: int)

  function Hex(b: Octet): string
  {
    "\\x" + [HexDigit(b / 16), HexDigit(b % 16)]
  }

  function EscapeByte(b: Octet): string
  {
    if b == SLASH then "-" else if IsKept(b as char) then [b as char] else Hex(b)
  }

  function EscapeAll(jobLabel: seq<Octet>): string
  {
    if jobLabel == [] then "" else EscapeAll(jobLabel[..|jobLabel| - 1]) + EscapeByte(jobLabel[|jobLabel| - 1])
  }

  /** A leading dot is escaped, so that no unit file is hidden. */
  function WithoutLeadingDot(name: string): string
  {
    if name != "" && name[0] == '.' then "\\x2e" + name[1..] else name
  }

  function UnitName(jobLabel: seq<Octet>): string
  {
    WithoutLeadingDot(EscapeAll(jobLabel))
  }

  method GetName(jobLabel: seq<Octet>) returns (name: string)
    ensures name == UnitName(jobLabel)
  {
    var characters: string := "";
    for i := 0 to |jobLabel|
      invariant characters == EscapeAll(jobLabel[..i])
    {
      assert jobLabel[..i + 1][..i] == jobLabel[..i];
      var b := jobLabel[i];
      if b == SLASH {
        characters := characters + "-";
      } else if IsKept(b as char) {
        characters := characters + [b as char];
      } else {
        characters := characters + Hex(b);
      }
    }
    assert jobLabel[..|jobLabel|] == jobLabel;
    name := characters;
    if name != "" && name[0] == '.' {
      name := "\\x2e" + name[1..];
    }
  }

  // ---------- undoing it ----------

  /** The byte an escaped name starts with, and the rest of the name. */
  function TakeOctet(name: string): (r: (Octet, string))
    requires name != ""
    ensures |r.1| < |name|
  {
    if name[0] == '-' then (SLASH, name[1..])
    else if |name| >= 4 && name[0] == '\\' && HexValue(name[2]).Digit? && HexValue(name[3]).Digit? then
      (16 * HexValue(name[2]).value + HexValue(name[3]).value, name[4..])
    else (name[0] as int % 256, name[1..])
  }

  function Unescape(name: string): seq<Octet>
    decreases |name|
  {
    if name == "" then [] else [TakeOctet(name).0] + Unescape(TakeOctet(name).1)
  }

  lemma HexRoundTrip(b: Octet)
    ensures HexValue(HexDigit(b / 16)) == Digit(b / 16) && HexValue(HexDigit(b % 16)) == Digit(b % 16)
  {
  }

  /** The next byte is read off whatever follows it. */
  lemma TakeEscaped(b: Octet, rest: string)
    ensures TakeOctet(EscapeByte(b) + rest) == (b, rest)
    ensures TakeOctet(Hex(b) + rest) == (b, rest)
  {
    HexRoundTrip(b);
    var hex := Hex(b) + rest;
    assert hex[0] == '\\' && hex[2] == HexDigit(b / 16) && hex[3] == HexDigit(b % 16) && hex[4..] == rest;
    if b == SLASH || IsKept(b as char) {
      assert (EscapeByte(b) + rest)[1..] == rest;
    }
  }

  lemma {:induction false} EscapeFront(b: Octet, jobLabel: seq<Octet>)
    ensures EscapeAll([b] + jobLabel) == EscapeByte(b) + EscapeAll(jobLabel)
  {
    var all := [b] + jobLabel;
    if jobLabel == [] {
      assert all[..0] == [];
    } else {
      assert all[..|all| - 1] == [b] + jobLabel[..|jobLabel| - 1];
      EscapeFront(b, jobLabel[..|jobLabel| - 1]);
    }
  }

  lemma {:induction false} UnescapeAll(jobLabel: seq<Octet>)
    ensures Unescape(EscapeAll(jobLabel)) == jobLabel
  {
    if jobLabel != [] {
      assert jobLabel == [jobLabel[0]] + jobLabel[1..];
      EscapeFront(jobLabel[0], jobLabel[1..]);
      TakeEscaped(jobLabel[0], EscapeAll(jobLabel[1..]));
      UnescapeAll(jobLabel[1..]);
    }
  }

  lemma FirstIsDot(jobLabel: seq<Octet>)
    requires jobLabel != []
    ensures EscapeAll(jobLabel) != "" && (EscapeAll(jobLabel)[0] == '.' <==> jobLabel[0] == DOT)
    ensures jobLabel[0] == DOT ==> EscapeAll(jobLabel)[1..] == EscapeAll(jobLabel[1..])
  {
    assert jobLabel == [jobLabel[0]] + jobLabel[1..];
    EscapeFront(jobLabel[0], jobLabel[1..]);
  }

  /** Every label is recovered from its unit name. */
  lemma UnitNameRoundTrip(jobLabel: seq<Octet>)
    ensures Unescape(UnitName(jobLabel)) == jobLabel
  {
    UnescapeAll(jobLabel);
    if jobLabel != [] {
      FirstIsDot(jobLabel);
      if jobLabel[0] == DOT {
        UnescapeAll(jobLabel[1..]);
        assert UnitName(jobLabel) == Hex(DOT) + EscapeAll(jobLabel[1..]);
        TakeEscaped(DOT, EscapeAll(jobLabel[1..]));
        assert jobLabel == [jobLabel[0]] + jobLabel[1..];
      }
    }
  }

  /** Different labels never share a unit. */
  lemma UnitNamesAreDistinct(jobLabel: seq<Octet>, other: seq<Octet>)
    requires UnitName(jobLabel) == UnitName(other)
    ensures jobLabel == other
  {
    UnitNameRoundTrip(jobLabel);
    UnitNameRoundTrip(other);
  }

  // ---------- legal names ----------

  predicate IsLegal(c: char)
  {
    IsKept(c) || c == '-' || c == '\\'
  }

  lemma {:induction false} EscapedIsLegal(jobLabel: seq<Octet>)
    ensures forall c :: c in EscapeAll(jobLabel) ==> IsLegal(c)
  {
    if jobLabel != [] {
      EscapedIsLegal(jobLabel[..|jobLabel| - 1]);
      assert forall c :: c in EscapeByte(jobLabel[|jobLabel| - 1]) ==> IsLegal(c);
    }
  }

  /** A unit name uses only the legal characters and does not start with a dot. */
  lemma UnitNameIsLegal(jobLabel: seq<Octet>)
    ensures forall c :: c in UnitName(jobLabel) ==> IsLegal(c)
    ensures UnitName(jobLabel) != "" ==> UnitName(jobLabel)[0] != '.'
    ensures UnitName(jobLabel) == "" <==> jobLabel == []
  {
    EscapedIsLegal(jobLabel);
    if jobLabel != [] {
      FirstIsDot(jobLabel);
    }
  }

  // ---------- labels that are their own name ----------

  /** An ASCII letter or digit, a colon, an underscore or a dot. */
  predicate IsPlain(b: Octet)
  {
    65 <= b <= 90 || 97 <= b <= 122 || 48 <= b <= 57 || b == 58 || b == 95 || b == 46
  }

  function Chars(jobLabel: seq<Octet>): string
  {
    seq(|jobLabel|, k requires 0 <= k < |jobLabel| => jobLabel[k] as char)
  }

  lemma {:induction false} EscapedIsSameIff(jobLabel: seq<Octet>)
    ensures |EscapeAll(jobLabel)| >= |jobLabel|
    ensures EscapeAll(jobLabel) == Chars(jobLabel) <==> forall b :: b in jobLabel ==> IsPlain(b)
  {
    if jobLabel != [] {
      var front, last := jobLabel[..|jobLabel| - 1], jobLabel[|jobLabel| - 1];
      EscapedIsSameIff(front);
      assert jobLabel == front + [last];
      assert Chars(jobLabel) == Chars(front) + [last as char];
      assert EscapeByte(last) == [last as char] <==> IsPlain(last);
      if EscapeAll(jobLabel) == Chars(jobLabel) {
        assert |EscapeAll(front)| == |front|;
        assert EscapeAll(front) == EscapeAll(jobLabel)[..|front|] == Chars(front);
        assert EscapeByte(last) == EscapeAll(jobLabel)[|front|..] == [last as char];
      }
    }
  }

  /** A label is its own unit name exactly when all its bytes are plain and it does not start with a dot. */
  lemma PlainLabelIff(jobLabel: seq<Octet>)
    ensures UnitName(jobLabel) == Chars(jobLabel) <==>
            (forall b :: b in jobLabel ==> IsPlain(b)) && (jobLabel != [] ==> jobLabel[0] != DOT)
  {
    EscapedIsSameIff(jobLabel);
    if jobLabel != [] {
      FirstIsDot(jobLabel);
    }
  }
}
