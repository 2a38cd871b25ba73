/**
 * String helpers shared by the components: JavaScript's `toLowerCase`
 * restricted to the Latin and Cyrillic alphabets, `String.prototype.includes`,
 * `trim()`-emptiness, and the first-match keyword rule tables that the
 * assistant and the specialist-icon lookup are built from.
 */
module Text {

  /** Upper-case letters of the basic Latin and Cyrillic blocks. */
  predicate IsUpper(c: char) {
    ('A' <= c <= 'Z') || ('А' <= c <= 'Я') || ('Ѐ' <= c <= 'Џ')
  }

  /** `toLowerCase` on one character: A-Z and А-Я move by 0x20, Ѐ-Џ by 0x50. */
  function LowerChar(c: char): (l: char)
    ensures !IsUpper(l)
    ensures !IsUpper(c) ==> l == c
    ensures IsUpper(c) ==> l != c
  {
    if 'A' <= c <= 'Z' then (c as int + 0x20) as char
    else if 'А' <= c <= 'Я' then (c as int + 0x20) as char
    else if 'Ѐ' <= c <= 'Џ' then (c as int + 0x50) as char
    else c
  }

  /** `s.toLowerCase()`, character by character. */
  function Lower(s: string): (r: string)
    ensures |r| == |s|
    ensures forall i :: 0 <= i < |r| ==> !IsUpper(r[i])
    ensures forall i :: 0 <= i < |s| && !IsUpper(s[i]) ==> r[i] == s[i]
  {
    seq(|s|, i requires 0 <= i < |s| => LowerChar(s[i]))
  }

  /** Lower-casing a lower-cased string changes nothing. */
  lemma LowerIdempotent(s: string)
    ensures Lower(Lower(s)) == Lower(s)
  {
  }

  /** `k` occurs in `s` starting at index `i`. */
  predicate OccursAt(s: string, k: string, i: nat) {
    i + |k| <= |s| && s[i..i + |k|] == k
  }

  /** `s.includes(k)`: plain substring containment, no word boundaries. */
  predicate Contains(s: string, k: string) {
    exists i :: 0 <= i <= |s| - |k| && OccursAt(s, k, i)
  }

  /**
   * No window of `s` starts with the first four characters of `k` (all
   * three when `k` has only three).
   */
  predicate PrefixFree(s: string, k: string) {
    |k| >= 3 &&
    forall i :: 0 <= i <= |s| - (if |k| >= 4 then 4 else 3) ==>
      !(s[i] == k[0] && s[i + 1] == k[1] && s[i + 2] == k[2] && (|k| < 4 || s[i + 3] == k[3]))
  }

  /** A keyword whose prefix never occurs in `s` does not occur in `s` either. */
  lemma AbsentByPrefix(s: string, k: string)
    requires PrefixFree(s, k)
    ensures !Contains(s, k)
  {
    forall i | 0 <= i <= |s| - |k|
      ensures !OccursAt(s, k, i)
    {
      assert i <= |s| - (if |k| >= 4 then 4 else 3);
      assert !(s[i] == k[0] && s[i + 1] == k[1] && s[i + 2] == k[2] && (|k| < 4 || s[i + 3] == k[3]));
    }
  }

  /**
   * The characters JavaScript's `trim()` removes: the ECMAScript WhiteSpace
   * and LineTerminator code points.
   */
  predicate IsJsWhitespace(c: char) {
    || c == '\t' || c == '\n' || c == '\U{B}' || c == '\U{C}' || c == '\r' || c == ' '
    || c == '\U{A0}' || c == '\U{1680}' || ('\U{2000}' <= c <= '\U{200A}')
    || c == '\U{2028}' || c == '\U{2029}' || c == '\U{202F}' || c == '\U{205F}'
    || c == '\U{3000}' || c == '\U{FEFF}'
  }

  /** `!s.trim()`: the string is empty once surrounding white space is removed. */
  predicate IsBlank(s: string) {
    forall i :: 0 <= i < |s| ==> IsJsWhitespace(s[i])
  }

  /** One row of a first-match table: any of `keywords` selects `outcome`. */
  datatype Rule<T> = Rule(keywords: seq<string>, outcome: T)

  /** Some keyword of `rule` occurs in `text`. */
  predicate Fires<T>(text: string, rule: Rule<T>) {
    exists j :: 0 <= j < |rule.keywords| && Contains(text, rule.keywords[j])
  }

  /**
   * Index of the first rule at or after `from` that fires on `text`, or
   * `|rules|` when none does: the early-return `if` chain, in table order.
   */
  function FirstFiring<T>(text: string, rules: seq<Rule<T>>, from: nat): (i: nat)
    requires from <= |rules|
    ensures from <= i <= |rules|
    ensures i < |rules| ==> Fires(text, rules[i])
    ensures forall j :: from <= j < i ==> !Fires(text, rules[j])
    decreases |rules| - from
  {
    if from == |rules| then from
    else if Fires(text, rules[from]) then from
    else FirstFiring(text, rules, from + 1)
  }

  /** A rule none of whose keywords can start anywhere in `text` stays silent. */
  lemma SilentRule<T>(text: string, rule: Rule<T>)
    requires forall j :: 0 <= j < |rule.keywords| ==> PrefixFree(text, rule.keywords[j])
    ensures !Fires(text, rule)
  {
    forall j | 0 <= j < |rule.keywords|
      ensures !Contains(text, rule.keywords[j])
    {
      AbsentByPrefix(text, rule.keywords[j]);
    }
  }

  /** No rule of `rules` fires on `text`. */
  predicate NoneFires<T>(text: string, rules: seq<Rule<T>>) {
    forall j :: 0 <= j < |rules| ==> !Fires(text, rules[j])
  }

  /** Rule `i` fires on `text` and no earlier rule does. */
  predicate FirstToFire<T>(text: string, rules: seq<Rule<T>>, i: int) {
    0 <= i < |rules| && Fires(text, rules[i]) && forall j :: 0 <= j < i ==> !Fires(text, rules[j])
  }

  /**
   * The outcome of the first rule that fires on `text`, or `fallback`.
   * Ties are broken only by table order.
   */
  function Dispatch<T>(text: string, rules: seq<Rule<T>>, fallback: T): (r: T)
    ensures NoneFires(text, rules) ==> r == fallback
    ensures forall i :: FirstToFire(text, rules, i) ==> r == rules[i].outcome
  {
    var i := FirstFiring(text, rules, 0);
    if i < |rules| then rules[i].outcome else fallback
  }
}
