// The stress test's large text block: 1500 words cycled from a fixed
// lorem-ipsum list, each followed by a space, with a line break after
// every fifteenth word.

module StressText {
  /// The word list, in the source's five lines.
  const Words: seq<string> := WordsLine1 + WordsLine2 + WordsLine3 + WordsLine4 + WordsLine5
  const WordsLine1: seq<string> := ["Lorem", "ipsum", "dolor", "sit", "amet", "consectetur", "adipiscing", "elit"]
  const WordsLine2: seq<string> := ["sed", "do", "eiusmod", "tempor", "incididunt", "ut", "labore", "et", "dolore"]
  const WordsLine3: seq<string> := ["magna", "aliqua", "Ut", "enim", "ad", "minim", "veniam", "quis", "nostrud"]
  const WordsLine4: seq<string> := ["exercitation", "ullamco", "laboris", "nisi", "aliquip", "ex", "ea", "commodo"]
  const WordsLine5: seq<string> := ["consequat", "Duis", "aute", "irure", "in", "reprehenderit", "voluptate"]

  const WordCount: nat := 1500
  const WordsPerLine: nat := 15

  /// What iteration i appends: word i of the cycled list, a space, and a
  /// line break after the last word of each line.
  function Piece(words: seq<string>, i: nat): string
    requires |words| > 0
  {
    words[i % |words|] + " " + (if i % WordsPerLine == WordsPerLine - 1 then "\n" else "")
  }

  /// The text after the first n iterations.
  function TextOf(words: seq<string>, n: nat): string
    requires |words| > 0
  {
    if n == 0 then "" else TextOf(words, n - 1) + Piece(words, n - 1)
  }

  /// The number of times c occurs in s.
  function Occurrences(s: string, c: char): nat
  {
    if |s| == 0 then 0 else Occurrences(s[..|s| - 1], c) + (if s[|s| - 1] == c then 1 else 0)
  }

  lemma {:induction false} OccurrencesAppend(s: string, t: string, c: char)
    ensures Occurrences(s + t, c) == Occurrences(s, c) + Occurrences(t, c)
  {
    if |t| > 0 {
      assert (s + t)[..|s + t| - 1] == s + t[..|t| - 1];
      OccurrencesAppend(s, t[..|t| - 1], c);
    } else {
      assert s + t == s;
    }
  }

  lemma {:induction false} OccurrencesAbsent(s: string, c: char)
    requires c !in s
    ensures Occurrences(s, c) == 0
  {
    if |s| > 0 {
      assert s[..|s| - 1] <= s;
      OccurrencesAbsent(s[..|s| - 1], c);
    }
  }

  /// Words without spaces or line breaks.
  predicate Plain(words: seq<string>)
  {
    forall i | 0 <= i < |words| :: ' ' !in words[i] && '\n' !in words[i]
  }

  lemma PlainAppend(a: seq<string>, b: seq<string>)
    requires Plain(a) && Plain(b)
    ensures Plain(a + b)
  {
    forall i | 0 <= i < |a + b| ensures ' ' !in (a + b)[i] && '\n' !in (a + b)[i] {
      if i < |a| {
        assert (a + b)[i] == a[i];
      } else {
        assert (a + b)[i] == b[i - |a|];
      }
    }
  }

  /// Each line of the list is checked on its own, which keeps every proof
  /// small.
  lemma PlainLine1()
    ensures Plain(WordsLine1)
  {
  }

  lemma PlainLine2()
    ensures Plain(WordsLine2)
  {
  }

  lemma PlainLine3()
    ensures Plain(WordsLine3)
  {
  }

  lemma PlainLine4()
    ensures Plain(WordsLine4)
  {
  }

  lemma PlainLine5()
    ensures Plain(WordsLine5)
  {
  }

  /// The source's list has 41 words, none with a space or a line break.
  lemma PlainWords()
    ensures Plain(Words) && |Words| == 41
  {
    PlainLine1();
    PlainLine2();
    PlainLine3();
    PlainLine4();
    PlainLine5();
    PlainAppend(WordsLine1, WordsLine2);
    PlainAppend(WordsLine1 + WordsLine2, WordsLine3);
    PlainAppend(WordsLine1 + WordsLine2 + WordsLine3, WordsLine4);
    PlainAppend(WordsLine1 + WordsLine2 + WordsLine3 + WordsLine4, WordsLine5);
  }

  /// The list opens with "Lorem ipsum".
  lemma FirstWords()
    ensures |Words| > 1 && Words[0] == "Lorem" && Words[1] == "ipsum"
  {
  }

  /// Each piece holds exactly one space, and a line break exactly at the
  /// end of a line.
  lemma PieceCounts(words: seq<string>, i: nat)
    requires |words| > 0 && Plain(words)
    ensures Occurrences(Piece(words, i), ' ') == 1
    ensures Occurrences(Piece(words, i), '\n') == if i % WordsPerLine == WordsPerLine - 1 then 1 else 0
  {
    var word := words[i % |words|];
    var tail: string := if i % WordsPerLine == WordsPerLine - 1 then "\n" else "";
    OccurrencesAbsent(word, ' ');
    OccurrencesAbsent(word, '\n');
    OccurrencesAppend(word, " ", ' ');
    OccurrencesAppend(word, " ", '\n');
    OccurrencesAppend(word + " ", tail, ' ');
    OccurrencesAppend(word + " ", tail, '\n');
  }

  lemma LineStep(n: nat)
    requires n > 0
    ensures n / WordsPerLine == (n - 1) / WordsPerLine + (if (n - 1) % WordsPerLine == WordsPerLine - 1 then 1 else 0)
  {
  }

  /// After n words the text holds n spaces and one line break per
  /// completed line.
  lemma {:induction false} TextCounts(words: seq<string>, n: nat)
    requires |words| > 0 && Plain(words)
    ensures Occurrences(TextOf(words, n), ' ') == n
    ensures Occurrences(TextOf(words, n), '\n') == n / WordsPerLine
  {
    if n > 0 {
      var before := TextOf(words, n - 1);
      var piece := Piece(words, n - 1);
      assert TextOf(words, n) == before + piece;
      TextCounts(words, n - 1);
      assert Occurrences(TextOf(words, n), ' ') == n by {
        PieceCounts(words, n - 1);
        OccurrencesAppend(before, piece, ' ');
      }
      assert Occurrences(TextOf(words, n), '\n') == n / WordsPerLine by {
        PieceCounts(words, n - 1);
        OccurrencesAppend(before, piece, '\n');
        LineStep(n);
      }
    }
  }

  /// Earlier texts are prefixes of later ones.
  lemma {:induction false} TextGrows(words: seq<string>, m: nat, n: nat)
    requires |words| > 0 && m <= n
    ensures TextOf(words, m) <= TextOf(words, n)
  {
    if m < n {
      TextGrows(words, m, n - 1);
    }
  }

  /// The text starts with the first two words.
  lemma TextStart(words: seq<string>, n: nat)
    requires |words| > 1 && n >= 2
    ensures |TextOf(words, n)| >= |words[0]| + |words[1]| + 2
    ensures TextOf(words, n)[..|words[0]| + |words[1]| + 2] == words[0] + " " + words[1] + " "
  {
    assert TextOf(words, 1) == Piece(words, 0) == words[0] + " ";
    assert TextOf(words, 2) == TextOf(words, 1) + Piece(words, 1) == words[0] + " " + words[1] + " ";
    TextGrows(words, 2, n);
  }

  /// `generate_large_text`.
  method GenerateLargeText() returns (text: string)
    ensures text == TextOf(Words, WordCount)
    ensures Occurrences(text, ' ') == 1500 && Occurrences(text, '\n') == 100
    ensures |text| >= 12 && text[..12] == "Lorem ipsum "
  {
    PlainWords();
    FirstWords();
    var words := Words;
    text := "";
    for i := 0 to WordCount
      invariant text == TextOf(words, i)
    {
      text := text + words[i % |words|];
      text := text + " ";
      if i % 15 == 14 {
        text := text + "\n";
      }
    }
    TextCounts(words, WordCount);
    TextStart(words, WordCount);
  }
}
