/** What the string helpers come to, told without their recursions. */
module TextLaws {
  import opened Text

  /** White space is the blank, the tabs, and what breaks a line or a page. */
  lemma WhiteSpace(c: char)
    ensures IsSpace(c) <==> c in " \t\n\U{0B}\U{0C}\r"
  {
  }

  ghost predicate AllSpace(s: string) {
    forall i | 0 <= i < |s| :: IsSpace(s[i])
  }

  /** A text without white space at either end. */
  predicate Trimmed(s: string) {
    s == "" || (!IsSpace(s[0]) && !IsSpace(s[|s| - 1]))
  }

  // ---- trimming ----

  lemma {:induction false} TrimLeftDrops(pre: string, s: string)
    requires AllSpace(pre) && (s == "" || !IsSpace(s[0]))
    ensures TrimLeft(pre + s) == s
  {
    if pre == "" {
      assert pre + s == s;
    } else {
      assert (pre + s)[1..] == pre[1..] + s;
      TrimLeftDrops(pre[1..], s);
    }
  }

  lemma {:induction false} TrimRightDrops(s: string, post: string)
    requires AllSpace(post) && (s == "" || !IsSpace(s[|s| - 1]))
    ensures TrimRight(s + post) == s
  {
    if post == "" {
      assert s + post == s;
    } else {
      assert (s + post)[..|s + post| - 1] == s + post[..|post| - 1];
      TrimRightDrops(s, post[..|post| - 1]);
    }
  }

  /** Trimming takes away exactly the white space at the two ends. */
  lemma TrimSpaceDrops(pre: string, s: string, post: string)
    requires AllSpace(pre) && Trimmed(s) && AllSpace(post)
    ensures TrimSpace(pre + s + post) == s
  {
    if s == "" {
      TrimLeftDrops(pre + post, "");
      assert pre + s + post == (pre + post) + "";
    } else {
      TrimLeftDrops(pre, s + post);
      assert pre + s + post == pre + (s + post);
      TrimRightDrops(s, post);
    }
  }

  lemma {:induction false} TrimLeftSplits(s: string) returns (pre: string)
    ensures AllSpace(pre) && s == pre + TrimLeft(s)
  {
    if s == "" || !IsSpace(s[0]) {
      pre := "";
    } else {
      var rest := TrimLeftSplits(s[1..]);
      pre := [s[0]] + rest;
    }
  }

  lemma {:induction false} TrimRightSplits(s: string) returns (post: string)
    ensures AllSpace(post) && s == TrimRight(s) + post
    ensures TrimRight(s) != "" ==> !IsSpace(TrimRight(s)[|TrimRight(s)| - 1]) && TrimRight(s)[0] == s[0]
  {
    if s == "" || !IsSpace(s[|s| - 1]) {
      post := "";
    } else {
      var rest := TrimRightSplits(s[..|s| - 1]);
      post := rest + [s[|s| - 1]];
    }
  }

  /** Every text is what trimming leaves, with white space around it. */
  lemma TrimSpaceSplits(s: string) returns (pre: string, post: string)
    ensures AllSpace(pre) && Trimmed(TrimSpace(s)) && AllSpace(post) && s == pre + TrimSpace(s) + post
  {
    TrimLeftShrinks(s);
    pre := TrimLeftSplits(s);
    post := TrimRightSplits(TrimLeft(s));
  }

  // ---- words ----

  /** White space in front changes no word. */
  lemma FieldsAfterSpace(sp: char, s: string)
    requires IsSpace(sp)
    ensures Fields([sp] + s) == Fields(s)
  {
    assert ([sp] + s)[1..] == s;
    assert TrimLeft([sp] + s) == TrimLeft(s);
  }

  lemma {:induction false} WordEnds(w: string, sp: char, s: string)
    requires IsSpace(sp) && forall c | c in w :: !IsSpace(c)
    ensures Word(w) == w && Word(w + [sp] + s) == w
  {
    if w != "" {
      assert (w + [sp] + s)[1..] == w[1..] + [sp] + s;
      WordEnds(w[1..], sp, s);
      assert w == [w[0]] + w[1..];
    } else {
      assert w + [sp] + s == [sp] + s;
    }
  }

  /** A text without white space is one word, and white space after it ends it: the words of a text are its longest
      parts without white space, in order. */
  lemma FieldsOfWord(w: string, sp: char, s: string)
    requires w != "" && IsSpace(sp) && forall c | c in w :: !IsSpace(c)
    ensures Fields("") == [] && Fields(w) == [w] && Fields(w + [sp] + s) == [w] + Fields(s)
  {
    WordEnds(w, sp, s);
    assert w[0] in w;
    assert w[|w|..] == "";
    var t := w + [sp] + s;
    assert TrimLeft(w) == w && TrimLeft(t) == t;
    assert t[|w|..] == [sp] + s;
    FieldsAfterSpace(sp, s);
  }

  // ---- letters and digits ----

  /** Capitals become small letters, place by place; nothing else changes. */
  lemma LowerLetters(a: string, b: string, c: char)
    ensures ToLower(a + b) == ToLower(a) + ToLower(b)
    ensures ToLower("ABCDEFGHIJKLMNOPQRSTUVWXYZ") == "abcdefghijklmnopqrstuvwxyz"
    ensures !('A' <= c <= 'Z') ==> ToLower([c]) == [c]
  {
  }

  /** The number a text of digits stands for. */
  function Reading(s: string): int {
    if s == "" then 0 else 10 * Reading(s[..|s| - 1]) + (s[|s| - 1] as int - '0' as int)
  }

  /** A number is printed in digits that read as the number, with no zero in front. */
  lemma {:induction false} DecimalReads(n: nat)
    ensures Reading(Decimal(n)) == n
    ensures n > 0 ==> Decimal(n)[0] != '0'
  {
    var s := Decimal(n);
    assert s[|s| - 1] == ('0' as int + n % 10) as char;
    if n >= 10 {
      DecimalReads(n / 10);
      assert s[..|s| - 1] == Decimal(n / 10);
    } else {
      assert s[..|s| - 1] == "";
    }
  }
}
