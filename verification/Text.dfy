/** Strings as Python's `lower` and `in` treat them. */
module Text {
  /** ASCII letters alone. */
  function Lower(s: string): string {
    seq(|s|, i requires 0 <= i < |s| => if 'A' <= s[i] <= 'Z' then s[i] - 'A' + 'a' else s[i])
  }

  /** The lower-cased text has no capital and differs from the text in those alone. */
  lemma LowerIs(s: string, i: nat)
    requires i < |s|
    ensures |Lower(s)| == |s| && !('A' <= Lower(s)[i] <= 'Z')
    ensures Lower(s)[i] == s[i] || ('A' <= s[i] <= 'Z' && Lower(s)[i] as int - 'a' as int == s[i] as int - 'A' as int)
  {
  }

  /** `pattern in text` */
  predicate Contains(text: string, pattern: string) {
    exists i :: 0 <= i <= |text| && pattern <= text[i..]
  }

  lemma ContainsWithin(a: string, s: string, b: string, pattern: string)
    requires Contains(s, pattern)
    ensures Contains(a + s + b, pattern)
  {
    var i :| 0 <= i <= |s| && pattern <= s[i..];
    var t := a + s + b;
    assert t[|a| + i..] == s[i..] + b;
    assert pattern <= t[|a| + i..];
  }

  lemma ContainsTransitive(text: string, p: string, q: string)
    requires Contains(text, p) && Contains(p, q)
    ensures Contains(text, q)
  {
    var i :| 0 <= i <= |text| && p <= text[i..];
    assert text == text[..i] + p + text[i + |p|..];
    ContainsWithin(text[..i], p, text[i + |p|..], q);
  }

  lemma ContainsLetters(p: string, q: string, c: char)
    requires Contains(p, q) && c in q
    ensures c in p
  {
    var i :| 0 <= i <= |p| && q <= p[i..];
    var k :| 0 <= k < |q| && q[k] == c;
    assert p[i + k] == c;
  }

  lemma ContainsItself(p: string)
    ensures Contains(p, p)
  {
    assert p[0..] == p;
  }
}
