/** Ruby names as the routing DSL sees them: a topic or consumer name is either a
    String or a Symbol, and every lookup in `main.rb` first normalises it with
    `to_s`. */
module Names {

  /** A String or a Symbol carrying the same text. */
  datatype Name = Str(text: string) | Sym(text: string)

  /** `name.to_s`: both a String and a Symbol yield their text. */
  function ToS(n: Name): (s: string)
    ensures s == n.text
  {
    match n
    case Str(t) => t
    case Sym(t) => t
  }

  predicate IsUpper(c: char) {
    'A' <= c <= 'Z'
  }

  /** A character Ruby allows after the first one of an identifier: an ASCII
      letter, digit or underscore, or any non-ASCII character. */
  predicate IsIdentChar(c: char) {
    IsUpper(c) || 'a' <= c <= 'z' || '0' <= c <= '9' || c == '_' || c >= '\U{80}'
  }

  /** What `Object.const_get` accepts as a constant name: an ASCII upper-case
      letter followed by identifier characters. Such a name is never a scoped
      path (`A::B`), never holds white space and never starts with a digit. */
  predicate IsConstantName(s: string): (b: bool)
    ensures b ==> |s| > 0 && !('0' <= s[0] <= '9') && ':' !in s && ' ' !in s
  {
    && |s| > 0
    && IsUpper(s[0])
    && forall i :: 1 <= i < |s| ==> IsIdentChar(s[i])
  }

  /** Which strings `const_get` takes for constant names: `"HelloWorld"` and
      `"Café"` are, while the empty string, a lower-case start, a leading digit
      and a space inside are not. */
  lemma ConstantNameExamples()
    ensures IsConstantName("HelloWorld")
    ensures IsConstantName("Caf\U{e9}")
    ensures IsConstantName("A_1")
    ensures !IsConstantName("")
    ensures !IsConstantName("hello_world")
    ensures !IsConstantName("1A")
    ensures !IsConstantName("Hello World")
  {
    assert !IsIdentChar("Hello World"[5]);
  }
}
