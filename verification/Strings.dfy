/** strings.Split and friends. */
module Strings {
  import opened Wrappers

  /** strings.Split(s, sep) for a one-character separator. */
  function Split(s: string, sep: char): (ss: seq<string>)
    ensures |ss| >= 1
  {
    if s == "" then [""]
    else
      var rest := Split(s[1..], sep);
      if s[0] == sep then [""] + rest else [[s[0]] + rest[0]] + rest[1..]
  }

  /** strings.SplitN(s, sep, 2): the parts before and after the first separator, if there is one. */
  function Cut(s: string, sep: char): Option<(string, string)> {
    if s == "" then None
    else if s[0] == sep then Some(("", s[1..]))
    else
      match Cut(s[1..], sep)
      case None => None
      case Some((p, q)) => Some(([s[0]] + p, q))
  }

  lemma {:induction false} SplitFree(s: string, sep: char)
    requires sep !in s
    ensures Split(s, sep) == [s]
  {
    if s == "" {
    } else {
      SplitFree(s[1..], sep);
      assert s == [s[0]] + s[1..];
    }
  }

  lemma {:induction false} SplitAt(p: string, q: string, sep: char)
    requires sep !in p && sep !in q
    ensures Split(p + [sep] + q, sep) == [p, q]
  {
    var s := p + [sep] + q;
    if p == "" {
      assert s[1..] == q;
      SplitFree(q, sep);
    } else {
      assert s[1..] == p[1..] + [sep] + q;
      SplitAt(p[1..], q, sep);
      assert p == [p[0]] + p[1..];
    }
  }

  lemma {:induction false} SplitOne(s: string, sep: char)
    requires |Split(s, sep)| == 1
    ensures Split(s, sep) == [s] && sep !in s
  {
    if s == "" {
    } else {
      SplitOne(s[1..], sep);
      assert s == [s[0]] + s[1..];
    }
  }

  lemma {:induction false} SplitTwo(s: string, sep: char)
    requires |Split(s, sep)| == 2
    ensures var ss := Split(s, sep); s == ss[0] + [sep] + ss[1] && sep !in ss[0] && sep !in ss[1]
  {
    assert s != "";
    assert s == [s[0]] + s[1..];
    if s[0] == sep {
      SplitOne(s[1..], sep);
    } else {
      SplitTwo(s[1..], sep);
    }
  }

  lemma {:induction false} SplitPartsFree(s: string, sep: char, i: nat)
    requires i < |Split(s, sep)|
    ensures sep !in Split(s, sep)[i]
  {
    if s == "" {
    } else if i > 0 {
      SplitPartsFree(s[1..], sep, if s[0] == sep then i - 1 else i);
    } else if s[0] != sep {
      SplitPartsFree(s[1..], sep, 0);
    }
  }

  lemma {:induction false} CutAt(p: string, q: string, sep: char)
    requires sep !in p
    ensures Cut(p + [sep] + q, sep) == Some((p, q))
  {
    var s := p + [sep] + q;
    if p == "" {
      assert s[1..] == q;
    } else {
      assert s[1..] == p[1..] + [sep] + q;
      CutAt(p[1..], q, sep);
      assert p == [p[0]] + p[1..];
    }
  }

  lemma {:induction false} CutNone(s: string, sep: char)
    ensures Cut(s, sep).None? <==> sep !in s
    ensures Cut(s, sep).Some? ==> var (p, q) := Cut(s, sep).value; s == p + [sep] + q && sep !in p
  {
    if s == "" {
    } else {
      assert s == [s[0]] + s[1..];
      CutNone(s[1..], sep);
    }
  }
}
