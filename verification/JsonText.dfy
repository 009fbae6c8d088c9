/**
  JSON text for objects of strings, written as `JSON.stringify` does and read as RFC 8259 says (sections 2, 4 and 7):
  the account document of the Bitcoin page and its reader. What is written has no white space, and none is read here.
 */
module JsonText {
  import Hex
  import opened Wrappers

  // ---------- Writing ----------

  /** A character within a JSON string. */
  function Escaped(c: char): string {
    if c == '"' then "\\\""
    else if c == '\\' then "\\\\"
    else if c as int == 8 then "\\b"
    else if c as int == 9 then "\\t"
    else if c as int == 10 then "\\n"
    else if c as int == 12 then "\\f"
    else if c as int == 13 then "\\r"
    else if c as int < 32 then "\\u00" + [Hex.DigitChar(c as int / 16), Hex.DigitChar(c as int % 16)]
    else [c]
  }

  function EscapedAll(s: string): string {
    if s == "" then "" else Escaped(s[0]) + EscapedAll(s[1..])
  }

  function Quoted(s: string): string {
    "\"" + EscapedAll(s) + "\""
  }

  /** An object's members, in order. */
  function Object(members: seq<(string, string)>): string {
    "{" + Members(members) + "}"
  }

  function Member(m: (string, string)): string {
    Quoted(m.0) + (":" + Quoted(m.1))
  }

  function Members(members: seq<(string, string)>): string {
    if members == [] then ""
    else if |members| == 1 then Member(members[0])
    else Member(members[0]) + ("," + Members(members[1..]))
  }

  // ---------- Reading ----------

  function Wide(high: nat, low: nat): char
    requires high < 256 && low < 256 && !(0xD8 <= high < 0xE0)
  {
    (high * 256 + low) as char
  }

  /** The four hex digits of a `\u` escape, if they name a character. */
  function CodePoint(s: string): Option<char>
    requires |s| == 4
  {
    var bs := Hex.Decode(s);
    if bs.Some? && |bs.value| == 2 && !(0xD8 <= bs.value[0] < 0xE0) then
      Some(Wide(bs.value[0], bs.value[1]))
    else None
  }

  function Unescaped(c: char): Option<char> {
    if c == '"' || c == '\\' || c == '/' then Some(c)
    else if c == 'b' then Some(8 as char)
    else if c == 't' then Some(9 as char)
    else if c == 'n' then Some(10 as char)
    else if c == 'f' then Some(12 as char)
    else if c == 'r' then Some(13 as char)
    else None
  }

  /** The character that the inside of a JSON string starts with, and how much text it takes. */
  function ReadChar(s: string): (r: Option<(char, nat)>)
    requires s != "" && s[0] != '"'
    ensures r.Some? ==> 1 <= r.value.1 <= |s|
  {
    if s[0] != '\\' then if s[0] as int < 32 then None else Some((s[0], 1))
    else if |s| >= 6 && s[1] == 'u' then
      var c := CodePoint(s[2..6]);
      if c.Some? then Some((c.value, 6)) else None
    else if |s| >= 2 then
      var c := Unescaped(s[1]);
      if c.Some? then Some((c.value, 2)) else None
    else None
  }

  /** The rest of a JSON string after its first quote: what it holds, and the text that follows its last. */
  function ReadInside(s: string): (r: Option<(string, string)>)
    ensures r.Some? ==> |r.value.1| < |s|
    decreases |s|
  {
    if s == "" then None
    else if s[0] == '"' then Some(("", s[1..]))
    else
      var c := ReadChar(s);
      if c.None? then None
      else
        var rest := ReadInside(s[c.value.1..]);
        if rest.None? then None else Some(([c.value.0] + rest.value.0, rest.value.1))
  }

  function ReadString(s: string): (r: Option<(string, string)>)
    ensures r.Some? ==> |r.value.1| < |s|
  {
    if s != "" && s[0] == '"' then ReadInside(s[1..]) else None
  }

  function ReadMember(s: string): (r: Option<((string, string), string)>)
    ensures r.Some? ==> |r.value.1| < |s|
  {
    var name := ReadString(s);
    if name.None? || name.value.1 == "" || name.value.1[0] != ':' then None
    else
      var value := ReadString(name.value.1[1..]);
      if value.None? then None else Some(((name.value.0, value.value.0), value.value.1))
  }

  /** The members up to the closing brace, which ends the text. */
  function ReadMembers(s: string): Option<seq<(string, string)>>
    decreases |s|
  {
    var m := ReadMember(s);
    if m.None? then None
    else if m.value.1 == "}" then Some([m.value.0])
    else if m.value.1 == "" || m.value.1[0] != ',' then None
    else
      var rest := ReadMembers(m.value.1[1..]);
      if rest.None? then None else Some([m.value.0] + rest.value)
  }

  function ReadObject(s: string): Option<seq<(string, string)>> {
    if s == "{}" then Some([]) else if s != "" && s[0] == '{' then ReadMembers(s[1..]) else None
  }

  // ---------- What is written is read back ----------

  lemma Reassociate(a: string, b: string, c: string)
    ensures (a + b) + c == a + (b + c)
  {
  }

  lemma ControlBack(c: char, rest: string)
    requires c as int < 32
    ensures var e := "\\u00" + [Hex.DigitChar(c as int / 16), Hex.DigitChar(c as int % 16)];
            |e| == 6 && ReadChar(e + rest) == Some((c, 6))
  {
    var hi, lo := Hex.DigitChar(c as int / 16), Hex.DigitChar(c as int % 16);
    var e := "\\u00" + [hi, lo];
    Hex.DecodeEncode([0, c as int]);
    assert Hex.Encode([c as int]) == [hi, lo] by { assert Hex.Encode([]) == ""; }
    assert Hex.Encode([0, c as int]) == ['0', '0'] + Hex.Encode([c as int]);
    assert (e + rest)[2..6] == Hex.Encode([0, c as int]);
  }

  lemma EscapedBack(c: char, rest: string)
    ensures var e := Escaped(c);
            e != "" && (e + rest)[0] != '"' && ReadChar(e + rest) == Some((c, |e|))
  {
    var e := Escaped(c);
    assert forall i :: 0 <= i < |e| ==> (e + rest)[i] == e[i];
    if c as int < 32 && |e| == 6 { ControlBack(c, rest); }
  }

  lemma {:induction false} InsideBack(s: string, rest: string)
    ensures ReadInside(EscapedAll(s) + "\"" + rest) == Some((s, rest))
  {
    var text := EscapedAll(s) + "\"" + rest;
    if s == "" {
      assert text == "\"" + rest;
    } else {
      var e, more := Escaped(s[0]), EscapedAll(s[1..]) + "\"" + rest;
      assert text == e + more;
      EscapedBack(s[0], more);
      assert text[|e|..] == more;
      InsideBack(s[1..], rest);
      assert [s[0]] + s[1..] == s;
    }
  }

  lemma StringBack(s: string, rest: string)
    ensures ReadString(Quoted(s) + rest) == Some((s, rest))
  {
    var text := Quoted(s) + rest;
    assert text[0] == '"' && text[1..] == EscapedAll(s) + "\"" + rest;
    InsideBack(s, rest);
  }

  lemma MemberBack(m: (string, string), rest: string)
    ensures ReadMember(Member(m) + rest) == Some((m, rest))
  {
    var more := Quoted(m.1) + rest;
    Reassociate(Quoted(m.0), ":" + Quoted(m.1), rest);
    Reassociate(":", Quoted(m.1), rest);
    StringBack(m.0, ":" + more);
    assert (":" + more)[0] == ':' && (":" + more)[1..] == more;
    StringBack(m.1, rest);
  }

  lemma MembersText(members: seq<(string, string)>)
    requires |members| > 1
    ensures Members(members) + "}" == Member(members[0]) + ("," + (Members(members[1..]) + "}"))
  {
    var m, rest := Member(members[0]), Members(members[1..]);
    Reassociate(m, "," + rest, "}");
    Reassociate(",", rest, "}");
  }

  /** A member that another follows. */
  lemma MemberThenMembers(m: (string, string), rest: string, members: seq<(string, string)>)
    requires ReadMembers(rest) == Some(members)
    ensures ReadMembers(Member(m) + ("," + rest)) == Some([m] + members)
  {
    var more := "," + rest;
    assert more[0] == ',' && more[1..] == rest && more != "}";
    MemberBack(m, more);
  }

  lemma LastMemberBack(m: (string, string))
    ensures ReadMembers(Member(m) + "}") == Some([m])
  {
    MemberBack(m, "}");
  }

  lemma {:induction false} MembersBack(members: seq<(string, string)>)
    requires members != []
    ensures ReadMembers(Members(members) + "}") == Some(members)
  {
    if |members| == 1 {
      LastMemberBack(members[0]);
      assert [members[0]] == members;
    } else {
      MembersBack(members[1..]);
      MembersText(members);
      MemberThenMembers(members[0], Members(members[1..]) + "}", members[1..]);
      assert [members[0]] + members[1..] == members;
    }
  }

  /** Every object of strings is read back, whatever characters they hold. */
  lemma ObjectBack(members: seq<(string, string)>)
    ensures ReadObject(Object(members)) == Some(members)
  {
    var text := Object(members);
    if members != [] {
      MembersBack(members);
      assert text[0] == '{' && text[1..] == Members(members) + "}";
      assert |Members(members)| > 0;
    }
  }

  /** Text without quotes, backslashes and control characters is written as it is. */
  lemma {:induction false} PlainIsKept(s: string)
    requires forall i :: 0 <= i < |s| ==> s[i] != '"' && s[i] != '\\' && s[i] as int >= 32
    ensures EscapedAll(s) == s
  {
    if s != "" {
      PlainIsKept(s[1..]);
      assert [s[0]] + s[1..] == s;
    }
  }
}
