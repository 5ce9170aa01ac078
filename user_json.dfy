/**
 * The JSON text under which a user record is persisted.
 *
 * EncodeUser is what JSON.stringify produces for a user object whose five
 * properties appear in declaration order: `{"id":"…","email":"…",…}` with
 * every string escaped the way JSON.stringify escapes it. DecodeUser is the
 * part of JSON.parse the session needs: it recognises that canonical text and
 * the literal `null`, and reports every other text as malformed. The two are
 * proved mutually inverse: a text decodes to a user exactly when it is that
 * user's encoding.
 */
module UserJson {
  import opened Wrappers
  import opened AuthTypes

  /** What parsing a stored user entry yields. */
  datatype ParseResult = Malformed | JsonNull | UserRecord(user: User)

  // ---- roles ---------------------------------------------------------------

  function RoleName(r: Role): string {
    match r
    case Tenant => "tenant"
    case Landlord => "landlord"
    case Agent => "agent"
  }

  function RoleFromName(s: string): (r: Option<Role>)
    ensures forall role :: r == Some(role) <==> RoleName(role) == s
  {
    if s == "tenant" then Some(Tenant)
    else if s == "landlord" then Some(Landlord)
    else if s == "agent" then Some(Agent)
    else None
  }

  // ---- escaping of one character -------------------------------------------

  /** The one-letter escapes JSON.stringify uses for five control characters. */
  function ShortEscape(c: char): Option<char> {
    if c == '\U{8}' then Some('b')
    else if c == '\t' then Some('t')
    else if c == '\n' then Some('n')
    else if c == '\U{C}' then Some('f')
    else if c == '\r' then Some('r')
    else None
  }

  function ShortUnescape(e: char): (r: Option<char>)
    ensures r.Some? ==> ShortEscape(r.value) == Some(e)
  {
    if e == 'b' then Some('\U{8}')
    else if e == 't' then Some('\t')
    else if e == 'n' then Some('\n')
    else if e == 'f' then Some('\U{C}')
    else if e == 'r' then Some('\r')
    else None
  }

  /** A lower-case hexadecimal digit. */
  function HexDigit(n: int): (c: char)
    requires 0 <= n < 16
    ensures HexValue(c) == Some(n)
  {
    if n < 10 then ('0' as int + n) as char else ('a' as int + n - 10) as char
  }

  function HexValue(c: char): (r: Option<int>)
    ensures r.Some? ==> 0 <= r.value < 16 && (if r.value < 10 then '0' as int + r.value else 'a' as int + r.value - 10) == c as int
  {
    if '0' <= c <= '9' then Some(c as int - '0' as int)
    else if 'a' <= c <= 'f' then Some(c as int - 'a' as int + 10)
    else None
  }

  /** How JSON.stringify writes one character inside a string literal. */
  function EscapeChar(c: char): string {
    if c == '"' || c == '\\' then ['\\', c]
    else if ShortEscape(c).Some? then ['\\', ShortEscape(c).value]
    else if c as int < 0x20 then ['\\', 'u', '0', '0', HexDigit(c as int / 16), HexDigit(c as int % 16)]
    else [c]
  }

  /** The body of a JSON string literal for `s`, without its quotes. */
  function Escape(s: string): string
    decreases |s|
  {
    if s == [] then [] else EscapeChar(s[0]) + Escape(s[1..])
  }

  /**
   * Reads one escape sequence from the text that follows a backslash: the
   * character it denotes and how many characters it used. Only the spellings
   * JSON.stringify emits are accepted.
   */
  function UnescapeTail(t: string): (r: Option<(char, nat)>)
    ensures r.Some? ==> 1 <= r.value.1 <= |t| && ['\\'] + t[..r.value.1] == EscapeChar(r.value.0)
  {
    if |t| >= 1 && (t[0] == '"' || t[0] == '\\') then Some((t[0], 1))
    else if |t| >= 1 && ShortUnescape(t[0]).Some? then Some((ShortUnescape(t[0]).value, 1))
    else if |t| >= 5 && t[0] == 'u' && t[1] == '0' && t[2] == '0' && (t[3] == '0' || t[3] == '1')
         && HexValue(t[4]).Some? then
      var code := (t[3] as int - '0' as int) * 16 + HexValue(t[4]).value;
      if ShortEscape(code as char).None? then Some((code as char, 5)) else None
    else None
  }

  /** Puts a character in front of the string a parse produced. */
  function Prepend(c: char, r: Option<(string, string)>): Option<(string, string)> {
    match r
    case None => None
    case Some((v, rest)) => Some(([c] + v, rest))
  }

  /**
   * Reads the body of a string literal whose opening quote has already been
   * consumed: the string it denotes and the text after its closing quote.
   */
  function ParseStringBody(t: string): Option<(string, string)>
    decreases |t|
  {
    if |t| == 0 then None
    else if t[0] == '"' then Some(([], t[1..]))
    else if t[0] == '\\' then
      match UnescapeTail(t[1..])
      case None => None
      case Some((c, n)) => Prepend(c, ParseStringBody(t[1 + n..]))
    else if t[0] as int < 0x20 then None
    else Prepend(t[0], ParseStringBody(t[1..]))
  }

  /** The escape of one character is read back by UnescapeTail. */
  lemma EscapeCharReadBack(c: char, tail: string)
    requires |EscapeChar(c)| > 1
    ensures EscapeChar(c)[0] == '\\'
    ensures UnescapeTail(EscapeChar(c)[1..] + tail) == Some((c, |EscapeChar(c)| - 1))
  {
    var t := EscapeChar(c)[1..] + tail;
    if !(c == '"' || c == '\\') && ShortEscape(c).None? {
      var n := c as int;
      assert n < 0x20;
      assert t[3] == HexDigit(n / 16) && t[4] == HexDigit(n % 16);
      assert (t[3] as int - '0' as int) == n / 16;
    }
  }

  /** The string parser reads one escaped character and goes on after it. */
  lemma ParseAfterEscape(c: char, tail: string)
    ensures ParseStringBody(EscapeChar(c) + tail) == Prepend(c, ParseStringBody(tail))
  {
    var e := EscapeChar(c);
    var t := e + tail;
    if |e| == 1 {
      assert t[0] == c && t[1..] == tail;
    } else {
      EscapeCharReadBack(c, tail);
      assert t[1..] == e[1..] + tail;
      assert t[1 + (|e| - 1)..] == tail;
    }
  }

  /** Parsing the escape of `x` followed by a closing quote gives back `x`. */
  lemma {:induction false} ParseEscaped(x: string, rest: string)
    ensures ParseStringBody(Escape(x) + ("\"" + rest)) == Some((x, rest))
    decreases |x|
  {
    if x == [] {
      assert Escape(x) + ("\"" + rest) == "\"" + rest;
    } else {
      var tail := Escape(x[1..]) + ("\"" + rest);
      assert Escape(x) + ("\"" + rest) == EscapeChar(x[0]) + tail;
      ParseAfterEscape(x[0], tail);
      ParseEscaped(x[1..], rest);
      assert x == [x[0]] + x[1..];
    }
  }

  /** A parse that starts with a backslash reads one escape sequence first. */
  lemma ParseFirstEscaped(t: string)
    requires ParseStringBody(t).Some? && t[0] == '\\'
    ensures UnescapeTail(t[1..]).Some?
    ensures var (c, n) := UnescapeTail(t[1..]).value;
      t[..1 + n] == EscapeChar(c) && ParseStringBody(t) == Prepend(c, ParseStringBody(t[1 + n..]))
  {
    var (c, n) := UnescapeTail(t[1..]).value;
    assert t[..1 + n] == ['\\'] + t[1..][..n];
  }

  /** A parse that starts with any other character reads that character first. */
  lemma ParseFirstPlain(t: string)
    requires ParseStringBody(t).Some? && t[0] != '\\' && t[0] != '"'
    ensures t[..1] == EscapeChar(t[0]) && ParseStringBody(t) == Prepend(t[0], ParseStringBody(t[1..]))
  {
    assert t[0] as int >= 0x20;
  }

  /** Every text the string parser accepts is an escaped string and a closing quote. */
  lemma {:induction false} ParsedIsEscaped(t: string, x: string, rest: string)
    requires ParseStringBody(t) == Some((x, rest))
    ensures t == Escape(x) + ("\"" + rest)
    decreases |t|
  {
    if t[0] == '"' {
      assert x == [];
    } else {
      var c, n;
      if t[0] == '\\' {
        ParseFirstEscaped(t);
        c, n := UnescapeTail(t[1..]).value.0, 1 + UnescapeTail(t[1..]).value.1;
      } else {
        ParseFirstPlain(t);
        c, n := t[0], 1;
      }
      var (v, rest') := ParseStringBody(t[n..]).value;
      ParsedIsEscaped(t[n..], v, rest');
      assert x == [c] + v && x[0] == c && x[1..] == v;
      assert t == t[..n] + t[n..];
    }
  }

  // ---- objects with a fixed list of string-valued members ------------------

  /** The text after prefix `p`, when `t` starts with it. */
  function StripPrefix(t: string, p: string): (r: Option<string>)
    ensures r.Some? ==> t == p + r.value
  {
    if |p| <= |t| && t[..|p|] == p then Some(t[|p|..]) else None
  }

  lemma StripConcat(p: string, x: string)
    ensures StripPrefix(p + x, p) == Some(x)
  {
    assert (p + x)[..|p|] == p && (p + x)[|p|..] == x;
  }

  /** Puts a value in front of the values a parse produced. */
  function PrependValue(v: string, r: Option<seq<string>>): Option<seq<string>> {
    match r
    case None => None
    case Some(vs) => Some([v] + vs)
  }

  /** The text before a member's value: the separator, the quoted name, `:` and the opening quote. */
  function MemberHead(name: string, first: bool): string {
    [if first then '{' else ','] + "\"" + name + "\":\""
  }

  /** The text that closes an object with no further members. */
  function ObjectEnd(first: bool): string {
    if first then "{}" else "}"
  }

  /** An object whose members are `names` with string values `values`, in that order. */
  function EncodeMembers(names: seq<string>, values: seq<string>, first: bool): string
    requires |names| == |values|
    decreases |names|
  {
    if |names| == 0 then ObjectEnd(first)
    else MemberHead(names[0], first) + (Escape(values[0]) + ("\"" + EncodeMembers(names[1..], values[1..], false)))
  }

  /** Reads an object whose members are exactly `names`, in that order, and returns their values. */
  function ParseMembers(t: string, names: seq<string>, first: bool): Option<seq<string>>
    decreases |names|
  {
    if |names| == 0 then
      (if t == ObjectEnd(first) then Some([]) else None)
    else
      match StripPrefix(t, MemberHead(names[0], first))
      case None => None
      case Some(body) =>
        match ParseStringBody(body)
        case None => None
        case Some((v, rest)) => PrependValue(v, ParseMembers(rest, names[1..], false))
  }

  lemma {:induction false} ParseEncodedMembers(names: seq<string>, values: seq<string>, first: bool)
    requires |names| == |values|
    ensures ParseMembers(EncodeMembers(names, values, first), names, first) == Some(values)
    decreases |names|
  {
    if |names| > 0 {
      var tail := EncodeMembers(names[1..], values[1..], false);
      StripConcat(MemberHead(names[0], first), Escape(values[0]) + ("\"" + tail));
      ParseEscaped(values[0], tail);
      ParseEncodedMembers(names[1..], values[1..], false);
      assert values == [values[0]] + values[1..];
    }
  }

  lemma {:induction false} ParsedMembersAreEncoded(t: string, names: seq<string>, first: bool, values: seq<string>)
    requires ParseMembers(t, names, first) == Some(values)
    ensures |values| == |names| && t == EncodeMembers(names, values, first)
    decreases |names|
  {
    if |names| > 0 {
      var body := StripPrefix(t, MemberHead(names[0], first)).value;
      var (v, rest) := ParseStringBody(body).value;
      var vs := ParseMembers(rest, names[1..], false).value;
      assert values == [v] + vs && values[0] == v && values[1..] == vs;
      ParsedIsEscaped(body, v, rest);
      ParsedMembersAreEncoded(rest, names[1..], false, vs);
    }
  }

  // ---- user records --------------------------------------------------------

  /** The property names of a user record, in the order the record declares them. */
  const UserKeys: seq<string> := ["id", "email", "firstName", "lastName", "role"]

  function UserValues(u: User): seq<string> {
    [u.id, u.email, u.firstName, u.lastName, RoleName(u.role)]
  }

  /** The text JSON.stringify gives a user record; never empty and never `null`. */
  function EncodeUser(u: User): (t: string)
    ensures t != "" && t != "null"
  {
    EncodeMembers(UserKeys, UserValues(u), true)
  }

  /**
   * The text JSON.stringify gives the user value a login body carries, which
   * may be `null`: the text `null` exactly for a null user.
   */
  function EncodeUserValue(u: Option<User>): (t: string)
    ensures t != ""
    ensures t == "null" <==> u.None?
  {
    match u
    case None => "null"
    case Some(v) => EncodeUser(v)
  }

  /** What JSON.parse gives for a stored user text. */
  function DecodeUser(t: string): (r: ParseResult)
    ensures r == JsonNull <==> t == "null"
    ensures t == "" ==> r == Malformed
  {
    if t == "null" then JsonNull
    else
      match ParseMembers(t, UserKeys, true)
      case Some(vs) =>
        if |vs| == 5 && RoleFromName(vs[4]).Some? then
          UserRecord(User(vs[0], vs[1], vs[2], vs[3], RoleFromName(vs[4]).value))
        else Malformed
      case None => Malformed
  }

  /** Decoding an encoded user gives that user back. */
  lemma DecodeEncodeUser(u: User)
    ensures DecodeUser(EncodeUser(u)) == UserRecord(u)
  {
    ParseEncodedMembers(UserKeys, UserValues(u), true);
  }

  /** Parsing the text written for a user value, null or not, gives that value back. */
  lemma DecodeEncodeUserValue(u: Option<User>)
    ensures DecodeUser(EncodeUserValue(u)) == if u.Some? then UserRecord(u.value) else JsonNull
  {
    if u.Some? {
      DecodeEncodeUser(u.value);
    }
  }

  /** A text parses to user `u` exactly when it is the encoding of `u`. */
  lemma DecodeUserIff(t: string, u: User)
    ensures DecodeUser(t) == UserRecord(u) <==> t == EncodeUser(u)
  {
    if DecodeUser(t) == UserRecord(u) {
      var vs := ParseMembers(t, UserKeys, true).value;
      ParsedMembersAreEncoded(t, UserKeys, true, vs);
      assert vs == UserValues(u);
    }
    if t == EncodeUser(u) { DecodeEncodeUser(u); }
  }
}
