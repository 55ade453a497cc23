/** The form rules shared by the five forms, read the way react-hook-form
    reads the options given to `register`: `required` rejects an empty
    value; `minLength`, `maxLength` and `pattern` are consulted only for a
    non-empty value. The two regular expressions the forms use are modelled
    exactly, each beside a plain statement of what it accepts. */
module Validation {
  import opened Wrappers
  import Api

  // ---------------------------------------------------------------------
  // Character classes

  /** JavaScript's `\s`: the white space and line terminator characters of
      ECMAScript. */
  predicate IsJsWhitespace(c: char) {
    c == '\t' || c == '\n' || c == '\U{000B}' || c == '\U{000C}' || c == '\r' || c == ' '
    || c == '\U{00A0}' || c == '\U{1680}' || ('\U{2000}' <= c <= '\U{200A}')
    || c == '\U{2028}' || c == '\U{2029}' || c == '\U{202F}' || c == '\U{205F}'
    || c == '\U{3000}' || c == '\U{FEFF}'
  }

  /** The characters a regular-expression `.` does not match. */
  predicate IsLineTerminator(c: char) {
    c == '\n' || c == '\r' || c == '\U{2028}' || c == '\U{2029}'
  }

  /** The special characters of the password policy. */
  const Specials := "!@#$%^&*(),.?\":{}|<>"

  datatype CharClass = Upper | Special

  /** `[A-Z]` and `[!@#$%^&*(),.?":{}|<>]`. */
  predicate InClass(k: CharClass, c: char) {
    match k
    case Upper => 'A' <= c <= 'Z'
    case Special => c in Specials
  }

  // ---------------------------------------------------------------------
  // The e-mail pattern

  /** A match of `[^\s@]+`. */
  predicate Segment(s: string) {
    |s| > 0 && forall p | 0 <= p < |s| :: !IsJsWhitespace(s[p]) && s[p] != '@'
  }

  /** `/^[^\s@]+@[^\s@]+\.[^\s@]+$/.test(v)`: an `@` at `i` and a `.` at `j`
      cut `v` into three runs of the class `[^\s@]+`. */
  predicate EmailRegex(v: string) {
    exists i, j | 0 < i < j < |v| ::
      v[i] == '@' && v[j] == '.' && Segment(v[..i]) && Segment(v[i + 1..j]) && Segment(v[j + 1..])
  }

  /** The same language in words: no white space, exactly one `@`, which is
      not the first character, and a `.` after it with at least one
      character on each side. */
  predicate EmailShape(v: string) {
    && (forall p | 0 <= p < |v| :: !IsJsWhitespace(v[p]))
    && exists at | 0 < at < |v| ::
         && v[at] == '@'
         && (forall p | 0 <= p < |v| && p != at :: v[p] != '@')
         && (exists k | at + 1 < k < |v| - 1 :: v[k] == '.')
  }

  /** Characters `lo` to `hi` of `v`, all outside `[\s@]`, form a segment. */
  lemma SegmentOfSlice(v: string, lo: int, hi: int)
    requires 0 <= lo < hi <= |v|
    requires forall p | lo <= p < hi :: !IsJsWhitespace(v[p]) && v[p] != '@'
    ensures Segment(v[lo..hi])
  {
    var s := v[lo..hi];
    forall p | 0 <= p < |s|
      ensures !IsJsWhitespace(s[p]) && s[p] != '@'
    {
      assert s[p] == v[lo + p];
    }
  }

  lemma {:induction false} RegexHasShape(v: string, i: int, j: int)
    requires 0 < i < j < |v| && v[i] == '@' && v[j] == '.'
    requires Segment(v[..i]) && Segment(v[i + 1..j]) && Segment(v[j + 1..])
    ensures EmailShape(v)
  {
    var a, b, c := v[..i], v[i + 1..j], v[j + 1..];
    forall p | 0 <= p < |v|
      ensures !IsJsWhitespace(v[p]) && (p != i ==> v[p] != '@')
    {
      if p < i {
        assert v[p] == a[p];
      } else if i < p < j {
        assert v[p] == b[p - i - 1];
      } else if j < p {
        assert v[p] == c[p - j - 1];
      }
    }
    assert i + 1 < j < |v| - 1;
  }

  lemma {:induction false} ShapeHasRegex(v: string, at: int, k: int)
    requires forall p | 0 <= p < |v| :: !IsJsWhitespace(v[p])
    requires 0 < at < |v| && v[at] == '@'
    requires forall p | 0 <= p < |v| && p != at :: v[p] != '@'
    requires at + 1 < k < |v| - 1 && v[k] == '.'
    ensures EmailRegex(v)
  {
    SegmentOfSlice(v, 0, at);
    SegmentOfSlice(v, at + 1, k);
    SegmentOfSlice(v, k + 1, |v|);
    assert v[0..at] == v[..at] && v[k + 1..|v|] == v[k + 1..];
  }

  lemma {:induction false} EmailRegexIsShape(v: string)
    ensures EmailRegex(v) <==> EmailShape(v)
  {
    if EmailRegex(v) {
      var i, j :| 0 < i < j < |v| && v[i] == '@' && v[j] == '.'
                  && Segment(v[..i]) && Segment(v[i + 1..j]) && Segment(v[j + 1..]);
      RegexHasShape(v, i, j);
    }
    if EmailShape(v) {
      var at :| 0 < at < |v| && v[at] == '@'
                && (forall p | 0 <= p < |v| && p != at :: v[p] != '@')
                && (exists k | at + 1 < k < |v| - 1 :: v[k] == '.');
      var k :| at + 1 < k < |v| - 1 && v[k] == '.';
      ShapeHasRegex(v, at, k);
    }
  }

  // ---------------------------------------------------------------------
  // The password pattern

  /** `(?=.*[class])` at the start of `v`: a character of the class that
      only characters matched by `.` precede. */
  predicate Lookahead(k: CharClass, v: string) {
    exists i | 0 <= i < |v| :: InClass(k, v[i]) && forall p | 0 <= p < i :: !IsLineTerminator(v[p])
  }

  /** `/^(?=.*[A-Z])(?=.*[!@#$%^&*(),.?":{}|<>])/.test(v)`. */
  predicate PasswordRegex(v: string) {
    Lookahead(Upper, v) && Lookahead(Special, v)
  }

  predicate Contains(k: CharClass, v: string) {
    exists p | 0 <= p < |v| :: InClass(k, v[p])
  }

  predicate SingleLine(v: string) {
    forall p | 0 <= p < |v| :: !IsLineTerminator(v[p])
  }

  /** On one line the pattern asks for at least one capital letter and one
      special character somewhere. */
  lemma PasswordRegexOnOneLine(v: string)
    requires SingleLine(v)
    ensures PasswordRegex(v) <==> Contains(Upper, v) && Contains(Special, v)
  {
  }

  /** Past a line break the pattern sees nothing: a capital and a special
      character on the second line do not satisfy it. */
  lemma PasswordRegexStopsAtLineBreak()
    ensures Contains(Upper, "abcdefg\nA!") && Contains(Special, "abcdefg\nA!")
    ensures !PasswordRegex("abcdefg\nA!")
  {
    var v := "abcdefg\nA!";
    assert InClass(Upper, v[8]) && InClass(Special, v[9]);
    forall i | 0 <= i < |v| && InClass(Upper, v[i])
      ensures exists p | 0 <= p < i :: IsLineTerminator(v[p])
    {
      assert IsLineTerminator(v[7]);
    }
  }

  // ---------------------------------------------------------------------
  // Rules

  datatype Pattern = EmailPattern | PasswordPattern

  predicate Matches(p: Pattern, v: string) {
    match p
    case EmailPattern => EmailRegex(v)
    case PasswordPattern => PasswordRegex(v)
  }

  /** The options of one `register(name, options)` call, without `validate`. */
  datatype Rule = Rule(required: bool, minLength: Option<nat>, maxLength: Option<nat>, pattern: Option<Pattern>)

  /** Whether react-hook-form reports no error for `value` under `rule`. */
  predicate Accepts(rule: Rule, value: string) {
    if value == "" then !rule.required
    else
      && (rule.minLength.None? || |value| >= rule.minLength.value)
      && (rule.maxLength.None? || |value| <= rule.maxLength.value)
      && (rule.pattern.None? || Matches(rule.pattern.value, value))
  }

  /** `{ required: true }` alone. */
  const Required := Rule(true, None, None, None)

  /** The e-mail rule every form repeats. */
  const EmailRule := Rule(true, None, None, Some(EmailPattern))

  /** The password policy of the admin form, the sign-up form and the
      password dialog. */
  const PasswordRule := Rule(true, Some(8), Some(16), Some(PasswordPattern))

  /** The optional address field. */
  const AddressRule := Rule(false, None, Some(400), None)

  /** `validate: (value) => value === password || "Passwords do not match"`
      behind `required`. */
  predicate ConfirmAccepts(confirm: string, password: string) {
    confirm != "" && confirm == password
  }

  /** A name rule `required`, `minLength: lo`, `maxLength: hi`. */
  function LengthRule(lo: nat, hi: nat): (r: Rule)
    ensures r.required && r.pattern.None?
  {
    Rule(true, Some(lo), Some(hi), None)
  }

  lemma LengthRuleMeaning(lo: nat, hi: nat, v: string)
    requires lo > 0
    ensures Accepts(LengthRule(lo, hi), v) <==> lo <= |v| <= hi
  {
  }

  lemma EmailRuleMeaning(v: string)
    ensures Accepts(EmailRule, v) <==> EmailShape(v)
  {
    EmailRegexIsShape(v);
  }

  /** The policy: 8 to 16 characters and the pattern; on one line, a
      capital letter and a special character. */
  lemma PasswordRuleMeaning(v: string)
    ensures Accepts(PasswordRule, v) <==> 8 <= |v| <= 16 && PasswordRegex(v)
    ensures SingleLine(v) ==>
              (Accepts(PasswordRule, v) <==> 8 <= |v| <= 16 && Contains(Upper, v) && Contains(Special, v))
  {
    if SingleLine(v) {
      PasswordRegexOnOneLine(v);
    }
  }

  lemma AddressRuleMeaning(v: string)
    ensures Accepts(AddressRule, v) <==> |v| <= 400
  {
  }

  lemma RequiredMeaning(v: string)
    ensures Accepts(Required, v) <==> v != ""
  {
  }

  // ---------------------------------------------------------------------
  // Forms

  /** The values a form holds, by field name; a registered field that was
      never typed into holds `""`. */
  type Form = map<string, string>

  function FieldValue(form: Form, name: string): string {
    if name in form then form[name] else ""
  }

  /** Every field named in `rules` passes its rule. */
  predicate AllAccepted(rules: map<string, Rule>, form: Form) {
    forall name | name in rules :: Accepts(rules[name], FieldValue(form, name))
  }

  /** The request body made of the given fields' values. */
  function FormBody(form: Form, fields: set<string>): (b: Api.Body)
    ensures b.Keys == fields
    ensures forall f | f in fields :: b[f] == Api.Str(FieldValue(form, f))
  {
    map f | f in fields :: Api.Str(FieldValue(form, f))
  }
}
