/** The stored user record and its text form.

    `JSON.stringify` / `JSON.parse` are modelled on the subset the session
    store writes: an object whose members are all strings, written in a fixed
    key order and without white space. Inside string literals `"`, `\` and
    control characters are escaped as `JSON.stringify` escapes them, and
    `Parse` decodes every escape `JSON.parse` knows. `Parse` accepts every
    text `Serialize` produces (proved below). It returns `None` on text
    `JSON.parse` would throw on: a raw control character, an unknown escape
    or a malformed `\uXXXX`. It also returns `None` on valid JSON of any
    other shape. */
module Json {
  import opened Wrappers

  /** A user record as the backend sends it; every field may be missing
      (`{...user, ...patch}` can produce any subset of keys). */
  datatype User = User(
    id: Option<string>,
    name: Option<string>,
    email: Option<string>,
    role: Option<string>,
    address: Option<string>)

  /** The object with no keys: what spreading `null` contributes. */
  const NoFields: User := User(None, None, None, None, None)

  /** Shallow merge `{...base, ...patch}`: every key present in `patch`
      overwrites, every other key keeps its value from `base`. */
  function Merge(base: User, patch: User): (r: User)
    ensures patch.id.Some? ==> r.id == patch.id
    ensures patch.id.None? ==> r.id == base.id
    ensures patch.name.Some? ==> r.name == patch.name
    ensures patch.name.None? ==> r.name == base.name
    ensures patch.email.Some? ==> r.email == patch.email
    ensures patch.email.None? ==> r.email == base.email
    ensures patch.role.Some? ==> r.role == patch.role
    ensures patch.role.None? ==> r.role == base.role
    ensures patch.address.Some? ==> r.address == patch.address
    ensures patch.address.None? ==> r.address == base.address
  {
    User(
      if patch.id.Some? then patch.id else base.id,
      if patch.name.Some? then patch.name else base.name,
      if patch.email.Some? then patch.email else base.email,
      if patch.role.Some? then patch.role else base.role,
      if patch.address.Some? then patch.address else base.address)
  }

  /** Spreading no fields changes nothing, a patch spread twice counts
      once, and spreading two patches in turn is spreading their merge. */
  lemma MergeLaws(base: User, p: User, q: User)
    ensures Merge(base, NoFields) == base
    ensures Merge(NoFields, p) == p
    ensures Merge(Merge(base, p), p) == Merge(base, p)
    ensures Merge(Merge(base, p), q) == Merge(base, Merge(p, q))
  {
  }

  // ---------------------------------------------------------------------
  // String literals

  /** A hexadecimal digit, lower case as `JSON.stringify` writes it. */
  function HexDigit(n: nat): (c: char)
    requires n < 16
    ensures '0' <= c <= '9' || 'a' <= c <= 'f'
  {
    if n < 10 then ('0' as int + n) as char else ('a' as int + n - 10) as char
  }

  /** The value of a hexadecimal digit of either case. */
  function HexValue(c: char): (r: Option<nat>)
    ensures r.Some? ==> r.value < 16
    ensures r.Some? <==> '0' <= c <= '9' || 'a' <= c <= 'f' || 'A' <= c <= 'F'
  {
    if '0' <= c <= '9' then Some(c as int - '0' as int)
    else if 'a' <= c <= 'f' then Some(c as int - 'a' as int + 10)
    else if 'A' <= c <= 'F' then Some(c as int - 'A' as int + 10)
    else None
  }

  lemma HexDigitValue(n: nat)
    requires n < 16
    ensures HexValue(HexDigit(n)) == Some(n)
  {
  }

  /** The UTF-16 code unit of the four digits of a `\uXXXX` escape. */
  function CodeUnit(d: string): (r: Option<nat>)
    requires |d| == 4
    ensures r.Some? ==> r.value < 0x1_0000
  {
    match (HexValue(d[0]), HexValue(d[1]), HexValue(d[2]), HexValue(d[3]))
    case (Some(a), Some(b), Some(c), Some(e)) => Some(((a * 16 + b) * 16 + c) * 16 + e)
    case _ => None
  }

  /** No raw control character: text that fits on one line. */
  predicate Printable(s: string) {
    forall i | 0 <= i < |s| :: s[i] >= ' '
  }

  lemma PrintableConcat(a: string, b: string)
    requires Printable(a) && Printable(b)
    ensures Printable(a + b)
  {
  }

  /** How `JSON.stringify` writes one character inside a string literal:
      `"` and `\` behind a backslash, the five control characters that have
      a short escape with it, every other control character as `\u00XX`,
      and anything else as itself. */
  function EscapeChar(c: char): (r: string)
    ensures |r| > 0 && r[0] != '"'
    ensures Printable(r)
    ensures |r| == 1 <==> c >= ' ' && c != '"' && c != '\\'
  {
    if c == '"' then ['\\', '"']
    else if c == '\\' then ['\\', '\\']
    else if c == '\U{0008}' then ['\\', 'b']
    else if c == '\U{000C}' then ['\\', 'f']
    else if c == '\n' then ['\\', 'n']
    else if c == '\r' then ['\\', 'r']
    else if c == '\t' then ['\\', 't']
    else if c < ' ' then ['\\', 'u', '0', '0', HexDigit(c as int / 16), HexDigit(c as int % 16)]
    else [c]
  }

  /** The characters of a string literal between its quotes: no raw control
      character is left in it. */
  function Escape(s: string): (r: string)
    ensures Printable(r)
  {
    if s == [] then []
    else
      PrintableConcat(EscapeChar(s[0]), Escape(s[1..]));
      EscapeChar(s[0]) + Escape(s[1..])
  }

  function Quote(s: string): string {
    "\"" + Escape(s) + "\""
  }

  /** The character a one-letter escape `\x` stands for. */
  function ShortEscape(x: char): Option<char> {
    if x == '"' || x == '\\' || x == '/' then Some(x)
    else if x == 'b' then Some('\U{0008}')
    else if x == 'f' then Some('\U{000C}')
    else if x == 'n' then Some('\n')
    else if x == 'r' then Some('\r')
    else if x == 't' then Some('\t')
    else None
  }

  /** Reads one character of a string literal, raw or escaped, and yields it
      with the text after it. A raw control character, an unknown escape,
      a malformed `\uXXXX` and a surrogate escape not paired as a high and
      a low half are refused. */
  function ParseChar(s: string): (r: Option<(char, string)>)
    requires s != []
    ensures r.Some? ==> |r.value.1| < |s|
    ensures s[0] < ' ' ==> r.None?
  {
    if s[0] < ' ' then None
    else if s[0] != '\\' then Some((s[0], s[1..]))
    else if |s| < 2 then None
    else if s[1] != 'u' then
      match ShortEscape(s[1])
      case None => None
      case Some(c) => Some((c, s[2..]))
    else if |s| < 6 then None
    else match CodeUnit(s[2..6])
      case None => None
      case Some(hi) =>
        if hi < 0xD800 || 0xE000 <= hi then Some((hi as char, s[6..]))
        else if 0xDC00 <= hi || |s| < 12 || s[6] != '\\' || s[7] != 'u' then None
        else match CodeUnit(s[8..12])
          case None => None
          case Some(lo) =>
            if lo < 0xDC00 || 0xE000 <= lo then None
            else Some(((0x1_0000 + (hi - 0xD800) * 0x400 + (lo - 0xDC00)) as char, s[12..]))
  }

  /** Reads the rest of a string literal whose opening quote is already
      consumed; yields its value and the text after the closing quote. */
  function ParseStringBody(s: string): (r: Option<(string, string)>)
    ensures r.Some? ==> |r.value.1| < |s|
    decreases |s|
  {
    if s == [] then None
    else if s[0] == '"' then Some(([], s[1..]))
    else match ParseChar(s)
      case None => None
      case Some(p) =>
        match ParseStringBody(p.1)
        case None => None
        case Some(q) => Some(([p.0] + q.0, q.1))
  }

  /** Each written character reads back as itself. */
  lemma ParseEscapedChar(c: char, rest: string)
    ensures ParseChar(EscapeChar(c) + rest) == Some((c, rest))
  {
    var e := EscapeChar(c) + rest;
    if c < ' ' && c != '\U{0008}' && c != '\U{000C}' && c != '\n' && c != '\r' && c != '\t' {
      var h, l := c as int / 16, c as int % 16;
      HexDigitValue(h);
      HexDigitValue(l);
      assert e[2..6] == ['0', '0', HexDigit(h), HexDigit(l)];
      assert e[6..] == rest;
    } else if |EscapeChar(c)| == 2 {
      assert e[2..] == rest;
    } else {
      assert e[1..] == rest;
    }
  }

  /** Text with no quote, backslash or control character is written as it
      is. */
  lemma {:induction false} EscapePlain(s: string)
    requires forall i | 0 <= i < |s| :: s[i] >= ' ' && s[i] != '"' && s[i] != '\\'
    ensures Escape(s) == s
  {
    if s != [] {
      EscapePlain(s[1..]);
      assert EscapeChar(s[0]) == [s[0]];
      assert [s[0]] + s[1..] == s;
    }
  }

  /** One character read off the front of a literal is the head of its
      value. */
  lemma ParseStringBodyStep(e: string, c: char, tail: string, value: string, rest: string)
    requires e != [] && e[0] != '"'
    requires ParseChar(e) == Some((c, tail))
    requires ParseStringBody(tail) == Some((value, rest))
    ensures ParseStringBody(e) == Some(([c] + value, rest))
  {
  }

  lemma Regroup(a: string, b: string, c: string, d: string)
    ensures a + b + c + d == a + (b + c + d)
  {
  }

  /** The escaped form of `s` followed by a closing quote reads back as
      `s`, leaving whatever follows the quote. */
  lemma {:induction false} ParseEscaped(s: string, rest: string)
    ensures ParseStringBody(Escape(s) + "\"" + rest) == Some((s, rest))
  {
    var e := Escape(s) + "\"" + rest;
    if s == [] {
      assert e == ['"'] + rest;
      assert e[1..] == rest;
    } else {
      var head := EscapeChar(s[0]);
      var tail := Escape(s[1..]) + "\"" + rest;
      assert e == head + tail && e[0] != '"' by {
        assert Escape(s) == head + Escape(s[1..]);
        Regroup(head, Escape(s[1..]), "\"", rest);
      }
      ParseEscapedChar(s[0], tail);
      ParseEscaped(s[1..], rest);
      ParseStringBodyStep(e, s[0], tail, s[1..], rest);
      assert [s[0]] + s[1..] == s;
    }
  }

  /** `JSON.parse` refuses a raw control character inside a string. */
  lemma RawControlRejected(s: string)
    requires s != [] && s[0] < ' '
    ensures ParseStringBody(s) == None
  {
  }

  // ---------------------------------------------------------------------
  // Objects with string members

  type Member = (string, string)

  /** Members after the opening brace, including the closing brace. */
  function EncodeMembers(ms: seq<Member>): string
    requires ms != []
  {
    Quote(ms[0].0) + ":" + Quote(ms[0].1)
      + (if |ms| == 1 then "}" else "," + EncodeMembers(ms[1..]))
  }

  function EncodeObject(ms: seq<Member>): string {
    if ms == [] then "{}" else "{" + EncodeMembers(ms)
  }

  /** Reads one `"key":"value"` member off the front of the text. */
  function ParseMember(s: string): (r: Option<(Member, string)>)
    ensures r.Some? ==> |r.value.1| < |s|
  {
    if s == [] || s[0] != '"' then None
    else match ParseStringBody(s[1..])
      case None => None
      case Some(k) =>
        if |k.1| < 2 || k.1[0] != ':' || k.1[1] != '"' then None
        else match ParseStringBody(k.1[2..])
          case None => None
          case Some(v) => Some(((k.0, v.0), v.1))
  }

  function ParseMembers(s: string): Option<seq<Member>>
    decreases |s|
  {
    match ParseMember(s)
    case None => None
    case Some(m) =>
      if m.1 == "}" then Some([m.0])
      else if m.1 != [] && m.1[0] == ',' then
        match ParseMembers(m.1[1..])
        case None => None
        case Some(more) => Some([m.0] + more)
      else None
  }

  function ParseObject(s: string): Option<seq<Member>> {
    if s == "{}" then Some([])
    else if s != [] && s[0] == '{' then ParseMembers(s[1..])
    else None
  }

  /** A quoted key, a colon and a quoted value make one member. */
  lemma ParseMemberOf(text: string, k: string, afterKey: string, v: string, rest: string)
    requires text != [] && text[0] == '"'
    requires ParseStringBody(text[1..]) == Some((k, afterKey))
    requires |afterKey| >= 2 && afterKey[0] == ':' && afterKey[1] == '"'
    requires ParseStringBody(afterKey[2..]) == Some((v, rest))
    ensures ParseMember(text) == Some(((k, v), rest))
  {
  }

  /** The text of a member regrouped as the parser reads it. */
  lemma MemberTextShape(ek: string, ev: string, tail: string)
    ensures "\"" + ek + "\"" + ":" + ("\"" + ev + "\"") + tail
            == ['"'] + (ek + "\"" + ([':', '"'] + (ev + "\"" + tail)))
  {
  }

  lemma ParseOneMember(k: string, v: string, tail: string)
    ensures ParseMember(Quote(k) + ":" + Quote(v) + tail) == Some(((k, v), tail))
  {
    var afterKey := [':', '"'] + (Escape(v) + "\"" + tail);
    var text := Quote(k) + ":" + Quote(v) + tail;
    assert text != [] && text[0] == '"' && text[1..] == Escape(k) + "\"" + afterKey by {
      MemberTextShape(Escape(k), Escape(v), tail);
    }
    assert ParseStringBody(text[1..]) == Some((k, afterKey)) by {
      ParseEscaped(k, afterKey);
    }
    assert ParseStringBody(afterKey[2..]) == Some((v, tail)) by {
      assert afterKey[2..] == Escape(v) + "\"" + tail;
      ParseEscaped(v, tail);
    }
    ParseMemberOf(text, k, afterKey, v, tail);
  }

  /** A member followed by the closing brace ends the list. */
  lemma ParseLastMember(text: string, m: Member)
    requires ParseMember(text) == Some((m, "}"))
    ensures ParseMembers(text) == Some([m])
  {
  }

  /** A member followed by a comma is the head of the list read after it. */
  lemma ParseNextMember(text: string, m: Member, more: string, ms: seq<Member>)
    requires ParseMember(text) == Some((m, "," + more))
    requires ParseMembers(more) == Some(ms)
    ensures ParseMembers(text) == Some([m] + ms)
  {
    var rest := "," + more;
    assert rest != "}" && rest[0] == ',' by {
      assert rest[0] == ',' && "}"[0] == '}';
    }
    assert rest[1..] == more;
  }

  lemma {:induction false} ParseEncodedMembers(ms: seq<Member>)
    requires ms != []
    ensures ParseMembers(EncodeMembers(ms)) == Some(ms)
    decreases |ms|
  {
    var k, v := ms[0].0, ms[0].1;
    var tail := if |ms| == 1 then "}" else "," + EncodeMembers(ms[1..]);
    assert ParseMember(EncodeMembers(ms)) == Some(((k, v), tail)) by {
      assert EncodeMembers(ms) == Quote(k) + ":" + Quote(v) + tail;
      ParseOneMember(k, v, tail);
    }
    if |ms| == 1 {
      ParseLastMember(EncodeMembers(ms), (k, v));
      assert ms == [(k, v)];
    } else {
      ParseEncodedMembers(ms[1..]);
      ParseNextMember(EncodeMembers(ms), (k, v), EncodeMembers(ms[1..]), ms[1..]);
      assert [(k, v)] + ms[1..] == ms;
    }
  }

  lemma ParseEncodedObject(ms: seq<Member>)
    ensures ParseObject(EncodeObject(ms)) == Some(ms)
  {
    if ms != [] {
      ParseEncodedMembers(ms);
      var text := EncodeObject(ms);
      assert text[1..] == EncodeMembers(ms);
      assert text != "{}" by {
        assert text[1] == '"';
      }
    }
  }

  // ---------------------------------------------------------------------
  // The user record

  function Field(key: string, value: Option<string>): seq<Member> {
    if value.Some? then [(key, value.value)] else []
  }

  function Members(u: User): seq<Member> {
    Field("id", u.id) + Field("name", u.name) + Field("email", u.email)
      + Field("role", u.role) + Field("address", u.address)
  }

  /** Like `JSON.parse`, a key that occurs twice takes its last value. */
  function Lookup(ms: seq<Member>, key: string): Option<string> {
    if ms == [] then None
    else if ms[|ms| - 1].0 == key then Some(ms[|ms| - 1].1)
    else Lookup(ms[..|ms| - 1], key)
  }

  lemma {:induction false} LookupAppend(a: seq<Member>, b: seq<Member>, key: string)
    ensures Lookup(a + b, key) == if Lookup(b, key).Some? then Lookup(b, key) else Lookup(a, key)
    decreases |b|
  {
    if b != [] {
      assert (a + b)[..|a + b| - 1] == a + b[..|b| - 1];
      LookupAppend(a, b[..|b| - 1], key);
    } else {
      assert a + b == a;
    }
  }

  lemma LookupField(key: string, value: Option<string>, other: string)
    ensures Lookup(Field(key, value), key) == value
    ensures other != key ==> Lookup(Field(key, value), other) == None
  {
    if value.Some? {
      assert Field(key, value)[..0] == [];
    }
  }

  /** Unknown keys are ignored; missing keys stay missing. */
  function FromMembers(ms: seq<Member>): User {
    User(Lookup(ms, "id"), Lookup(ms, "name"), Lookup(ms, "email"),
         Lookup(ms, "role"), Lookup(ms, "address"))
  }

  lemma {:induction false} FromOwnMembers(u: User)
    ensures FromMembers(Members(u)) == u
  {
    var f1, f2, f3 := Field("id", u.id), Field("name", u.name), Field("email", u.email);
    var f4, f5 := Field("role", u.role), Field("address", u.address);
    var keys := ["id", "name", "email", "role", "address"];
    forall k | k in keys
      ensures Lookup(Members(u), k)
        == (if Lookup(f5, k).Some? then Lookup(f5, k)
            else if Lookup(f4, k).Some? then Lookup(f4, k)
            else if Lookup(f3, k).Some? then Lookup(f3, k)
            else if Lookup(f2, k).Some? then Lookup(f2, k)
            else Lookup(f1, k))
    {
      LookupAppend(f1 + f2 + f3 + f4, f5, k);
      LookupAppend(f1 + f2 + f3, f4, k);
      LookupAppend(f1 + f2, f3, k);
      LookupAppend(f1, f2, k);
    }
    forall k | k in keys
      ensures Lookup(f1, k) == (if k == "id" then u.id else None)
      ensures Lookup(f2, k) == (if k == "name" then u.name else None)
      ensures Lookup(f3, k) == (if k == "email" then u.email else None)
      ensures Lookup(f4, k) == (if k == "role" then u.role else None)
      ensures Lookup(f5, k) == (if k == "address" then u.address else None)
    {
      LookupField("id", u.id, k);
      LookupField("name", u.name, k);
      LookupField("email", u.email, k);
      LookupField("role", u.role, k);
      LookupField("address", u.address, k);
    }
  }

  /** `JSON.stringify(user)`. */
  function Serialize(u: User): string {
    EncodeObject(Members(u))
  }

  /** `JSON.parse(text)`, `None` where the source's `catch` branch runs. */
  function Parse(text: string): Option<User> {
    match ParseObject(text)
    case None => None
    case Some(ms) => Some(FromMembers(ms))
  }

  /** Every record the session store writes reads back as itself. */
  lemma RoundTrip(u: User)
    ensures Parse(Serialize(u)) == Some(u)
  {
    ParseEncodedObject(Members(u));
    FromOwnMembers(u);
  }

  /** A serialised record is never the empty string, so the stored `user`
      entry is always truthy. */
  lemma SerializedNonEmpty(u: User)
    ensures Serialize(u) != ""
  {
    if Members(u) != [] {
      assert Serialize(u)[0] == '{';
    }
  }

  /** A line break is written as the escape `\n`, which reads back as a
      line break. */
  lemma NewlineEscape(rest: string)
    ensures EscapeChar('\n') == ['\\', 'n']
    ensures ParseChar(['\\', 'n'] + rest) == Some(('\n', rest))
  {
    ParseEscapedChar('\n', rest);
  }

  /** A control character reached inside a string, after any run of plain
      characters, makes the literal unreadable. */
  lemma {:induction false} ControlInsideRefused(v: string, c: char, tail: string)
    requires forall i | 0 <= i < |v| :: v[i] >= ' ' && v[i] != '"' && v[i] != '\\'
    requires c < ' '
    ensures ParseStringBody(v + [c] + tail) == None
  {
    if v == [] {
      RawControlRejected([c] + tail);
    } else {
      ControlInsideRefused(v[1..], c, tail);
      assert (v + [c] + tail)[1..] == v[1..] + [c] + tail;
    }
  }

  /** A member whose value literal cannot be read makes the object
      unreadable. */
  lemma ParseMemberValueRefused(text: string, k: string, afterKey: string)
    requires text != [] && text[0] == '"'
    requires ParseStringBody(text[1..]) == Some((k, afterKey))
    requires |afterKey| >= 2 && afterKey[0] == ':' && afterKey[1] == '"'
    requires ParseStringBody(afterKey[2..]) == None
    ensures ParseMember(text) == None
  {
  }

  lemma ParseObjectOpening(text: string)
    requires |text| >= 2 && text[0] == '{' && text[1] == '"'
    ensures ParseObject(text) == ParseMembers(text[1..])
  {
    assert text != "{}" by {
      assert "{}"[1] == '}';
    }
  }

  lemma ObjectTextShape(ek: string, value: string)
    ensures |"{" + ("\"" + ek + "\"") + ":\"" + value| >= 2
    ensures ("{" + ("\"" + ek + "\"") + ":\"" + value)[0] == '{'
    ensures ("{" + ("\"" + ek + "\"") + ":\"" + value)[1] == '"'
    ensures ("{" + ("\"" + ek + "\"") + ":\"" + value)[2..] == ek + "\"" + ([':', '"'] + value)
  {
  }

  /** A stored record whose first value holds a raw control character (say
      a line break typed into the address) is unreadable: restore takes the
      `catch` branch, as with `JSON.parse`. */
  lemma RawControlInValueRefused(k: string, v: string, c: char, tail: string)
    requires forall i | 0 <= i < |v| :: v[i] >= ' ' && v[i] != '"' && v[i] != '\\'
    requires c < ' '
    ensures Parse("{" + Quote(k) + ":\"" + (v + [c] + tail)) == None
  {
    var value := v + [c] + tail;
    var afterKey := [':', '"'] + value;
    var text := "{" + Quote(k) + ":\"" + value;
    ObjectTextShape(Escape(k), value);
    assert ParseStringBody(text[1..][1..]) == Some((k, afterKey)) by {
      assert text[1..][1..] == text[2..];
      ParseEscaped(k, afterKey);
    }
    assert ParseStringBody(afterKey[2..]) == None by {
      assert afterKey[2..] == value;
      ControlInsideRefused(v, c, tail);
    }
    ParseMemberValueRefused(text[1..], k, afterKey);
    ParseObjectOpening(text);
  }

  /** The members' text holds no raw control character. */
  lemma {:induction false} EncodedMembersPrintable(ms: seq<Member>)
    requires ms != []
    ensures Printable(EncodeMembers(ms))
    decreases |ms|
  {
    var k, v := Escape(ms[0].0), Escape(ms[0].1);
    PrintableConcat("\"", k);
    PrintableConcat("\"" + k, "\"");
    PrintableConcat("\"" + k + "\"", ":");
    PrintableConcat("\"", v);
    PrintableConcat("\"" + v, "\"");
    PrintableConcat("\"" + k + "\"" + ":", "\"" + v + "\"");
    var head := Quote(ms[0].0) + ":" + Quote(ms[0].1);
    var rest := if |ms| == 1 then "}" else "," + EncodeMembers(ms[1..]);
    if |ms| > 1 {
      EncodedMembersPrintable(ms[1..]);
      PrintableConcat(",", EncodeMembers(ms[1..]));
    }
    PrintableConcat(head, rest);
  }

  /** The stored record is a single line of printable text: every control
      character of a field is escaped. */
  lemma SerializedPrintable(u: User)
    ensures Printable(Serialize(u))
  {
    if Members(u) != [] {
      EncodedMembersPrintable(Members(u));
      PrintableConcat("{", EncodeMembers(Members(u)));
    }
  }

  /** Text that is not a serialised record is rejected (restore's `catch`). */
  lemma CorruptTextRejected()
    ensures Parse("{") == None
    ensures Parse("undefined") == None
  {
  }
}
