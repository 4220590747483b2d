/**
 * The report-analysis page: cleaning the Markdown a language model returns,
 * the language named in its prompts, and whether a description still needs
 * translating into the reader's language.
 */
module Reports {
  import opened Wrappers
  import opened Text
  import Seqs

  /** Every character of `r` occurs in `s`. */
  predicate Within(r: string, s: string) {
    forall x :: x in r ==> x in s
  }

  // The bold-marker replacement: pairs of asterisks removed, scanning left to right.
  function DropPairs(s: string): (r: string)
    ensures Within(r, s)
  {
    if |s| >= 2 && s[0] == '*' && s[1] == '*' then DropPairs(s[2..])
    else if s == [] then []
    else [s[0]] + DropPairs(s[1..])
  }

  /** Removing the pairs first and then single asterisks removes every asterisk. */
  lemma {:induction false} PairsThenSingles(s: string)
    ensures RemoveChar(DropPairs(s), '*') == RemoveChar(s, '*')
  {
    if |s| >= 2 && s[0] == '*' && s[1] == '*' {
      PairsThenSingles(s[2..]);
      assert s[1..][1..] == s[2..];
    } else if s != [] {
      PairsThenSingles(s[1..]);
      var d := DropPairs(s[1..]);
      assert ([s[0]] + d)[1..] == d;
    }
  }

  /**
   * `replace(/^- /gm, '• ')`: a "- " that starts the text or follows a line
   * terminator becomes "• "; `atStart` says whether `s` begins a line.
   */
  function Bullets(s: string, atStart: bool): (r: string)
    ensures |r| == |s|
    ensures forall i :: 0 <= i < |s| ==> r[i] == s[i] || (s[i] == '-' && r[i] == '•')
  {
    if s == [] then []
    else if atStart && |s| >= 2 && s[..2] == "- " then "• " + Bullets(s[2..], false)
    else [s[0]] + Bullets(s[1..], IsLineTerminator(s[0]))
  }

  /** A dash starting a line is replaced. */
  lemma BulletAtLineStart(rest: string)
    ensures Bullets("- " + rest, true) == "• " + Bullets(rest, false)
  {
    assert ("- " + rest)[..2] == "- " && ("- " + rest)[2..] == rest;
  }

  lemma BulletsStep(s: string, atStart: bool)
    requires s != [] && !(atStart && |s| >= 2 && s[..2] == "- ")
    ensures Bullets(s, atStart) == [s[0]] + Bullets(s[1..], IsLineTerminator(s[0]))
  {
  }

  /**
   * The replacement runs before trimming, so a dash after any other first
   * character of the line, such as indentation, is kept.
   */
  lemma IndentedDashKept(c: char, rest: string, atStart: bool)
    requires c != '-' && !IsLineTerminator(c)
    ensures Bullets([c] + "- " + rest, atStart) == [c] + "- " + Bullets(rest, false)
  {
    var s := [c] + "- " + rest;
    var t := "- " + rest;
    var u := " " + rest;
    assert s[..2][0] == c;
    assert s[0] == c && s[1..] == t;
    BulletsStep(s, atStart);
    assert t[0] == '-' && t[1..] == u;
    BulletsStep(t, false);
    assert u[0] == ' ' && u[1..] == rest;
    BulletsStep(u, false);
    assert [c] + ([t[0]] + ([u[0]] + Bullets(rest, false))) == [c] + "- " + Bullets(rest, false);
  }

  function TrimAll(lines: seq<string>): (r: seq<string>)
    ensures |r| == |lines|
    ensures forall i :: 0 <= i < |lines| ==> r[i] == Trim(lines[i])
  {
    seq(|lines|, i requires 0 <= i < |lines| => Trim(lines[i]))
  }

  predicate NonEmpty(line: string) {
    |line| > 0
  }

  /**
   * `cleanMarkdown`: asterisks removed, line-start dashes turned into
   * bullets, then the lines trimmed, the empty ones dropped and the rest
   * joined by blank lines.
   */
  function CleanMarkdown(text: string): (r: string)
    ensures '*' !in r
    ensures AllSpace(text) ==> r == ""
  {
    var starless := RemoveChar(DropPairs(text), '*');
    var bulleted := Bullets(starless, true);
    var lines := Split(bulleted, '\n');
    var kept := Seqs.Filter(TrimAll(lines), NonEmpty);
    CleanProperties(text, starless, bulleted, lines, kept);
    Join(kept, "\n\n")
  }

  lemma CleanProperties(text: string, starless: string, bulleted: string, lines: seq<string>, kept: seq<string>)
    requires starless == RemoveChar(DropPairs(text), '*')
    requires bulleted == Bullets(starless, true)
    requires lines == Split(bulleted, '\n')
    requires kept == Seqs.Filter(TrimAll(lines), NonEmpty)
    ensures '*' !in Join(kept, "\n\n")
    ensures AllSpace(text) ==> kept == []
  {
    NoStar(starless, bulleted, lines, kept);
    if AllSpace(text) {
      BlankStaysBlank(text, starless, bulleted, lines, kept);
    }
  }

  lemma NoStar(starless: string, bulleted: string, lines: seq<string>, kept: seq<string>)
    requires '*' !in starless
    requires bulleted == Bullets(starless, true)
    requires lines == Split(bulleted, '\n')
    requires kept == Seqs.Filter(TrimAll(lines), NonEmpty)
    ensures '*' !in Join(kept, "\n\n")
  {
    BulletsWithout(starless, true, '*');
    SplitWithout(bulleted, '\n', '*');
    KeptWithout(lines, '*');
  }

  lemma KeptWithout(lines: seq<string>, c: char)
    requires forall i :: 0 <= i < |lines| ==> c !in lines[i]
    requires c != '\n'
    ensures c !in Join(Seqs.Filter(TrimAll(lines), NonEmpty), "\n\n")
  {
    TrimAllWithout(lines, c);
    FilterWithout(TrimAll(lines), c);
    JoinWithout(Seqs.Filter(TrimAll(lines), NonEmpty), "\n\n", c);
  }

  lemma BulletsWithout(s: string, atStart: bool, c: char)
    requires c !in s && c != '•'
    ensures c !in Bullets(s, atStart)
  {
  }

  lemma SplitWithout(s: string, d: char, c: char)
    requires c !in s
    ensures forall i :: 0 <= i < |Split(s, d)| ==> c !in Split(s, d)[i]
  {
    SplitWithin(s, d);
  }

  lemma TrimAllWithout(lines: seq<string>, c: char)
    requires forall i :: 0 <= i < |lines| ==> c !in lines[i]
    ensures forall i :: 0 <= i < |TrimAll(lines)| ==> c !in TrimAll(lines)[i]
  {
    forall i | 0 <= i < |lines| ensures c !in Trim(lines[i]) {
      TrimWithin(lines[i]);
    }
  }

  lemma FilterWithout(lines: seq<string>, c: char)
    requires forall i :: 0 <= i < |lines| ==> c !in lines[i]
    ensures forall i :: 0 <= i < |Seqs.Filter(lines, NonEmpty)| ==> c !in Seqs.Filter(lines, NonEmpty)[i]
  {
    var kept := Seqs.Filter(lines, NonEmpty);
    forall i | 0 <= i < |kept| ensures c !in kept[i] {
      Seqs.FilterMembership(lines, NonEmpty, kept[i]);
    }
  }

  lemma BlankStaysBlank(text: string, starless: string, bulleted: string, lines: seq<string>, kept: seq<string>)
    requires AllSpace(text)
    requires starless == RemoveChar(DropPairs(text), '*')
    requires bulleted == Bullets(starless, true)
    requires lines == Split(bulleted, '\n')
    requires kept == Seqs.Filter(TrimAll(lines), NonEmpty)
    ensures kept == []
  {
    SpacesWithin(starless, text);
    BulletsOfSpaces(starless);
    SplitWithin(bulleted, '\n');
    forall i | 0 <= i < |lines| ensures Trim(lines[i]) == [] {
      SpacesWithin(lines[i], bulleted);
    }
    EmptiesDropped(TrimAll(lines), kept);
  }

  lemma SpacesWithin(r: string, s: string)
    requires AllSpace(s) && Within(r, s)
    ensures AllSpace(r)
  {
    forall i | 0 <= i < |r| ensures IsSpace(r[i]) {
      assert r[i] in r;
    }
  }

  lemma BulletsOfSpaces(s: string)
    requires AllSpace(s)
    ensures AllSpace(Bullets(s, true))
  {
    var b := Bullets(s, true);
    forall i | 0 <= i < |b| ensures IsSpace(b[i]) {
      assert IsSpace(s[i]);
    }
  }

  lemma EmptiesDropped(lines: seq<string>, kept: seq<string>)
    requires forall i :: 0 <= i < |lines| ==> lines[i] == []
    requires kept == Seqs.Filter(lines, NonEmpty)
    ensures kept == []
  {
    if kept != [] {
      assert NonEmpty(kept[0]);
      Seqs.FilterMembership(lines, NonEmpty, kept[0]);
    }
  }

  lemma {:induction false} SplitWithin(s: string, c: char)
    ensures forall i :: 0 <= i < |Split(s, c)| ==> Within(Split(s, c)[i], s)
    decreases |s|
  {
    var k := IndexOf(s, c);
    if k < |s| {
      SplitWithin(s[k + 1..], c);
      var r := Split(s, c);
      assert r == [s[..k]] + Split(s[k + 1..], c);
      forall i | 1 <= i < |r| ensures Within(r[i], s) {
        assert r[i] == Split(s[k + 1..], c)[i - 1];
      }
    }
  }

  lemma TrimWithin(s: string)
    ensures Within(Trim(s), s)
  {
    var t := TrimStart(s);
    assert Trim(s) == TrimEnd(t);
  }

  lemma {:induction false} JoinWithout(parts: seq<string>, sep: string, c: char)
    requires c !in sep
    requires forall i :: 0 <= i < |parts| ==> c !in parts[i]
    ensures c !in Join(parts, sep)
  {
    if |parts| > 1 {
      JoinWithout(parts[1..], sep, c);
    }
  }

  /** The language codes the prompts know, with the name each prompt uses. */
  const LanguageNames: seq<(string, string)> := [
    ("en", "English"), ("es", "Spanish (Español)"), ("fr", "French (Français)"), ("de", "German (Deutsch)"),
    ("hi", "Hindi (हिंदी)"), ("zh", "Chinese (中文)"), ("ja", "Japanese (日本語)"), ("ko", "Korean (한국어)"),
    ("ar", "Arabic (العربية)"), ("ru", "Russian (Русский)")
  ]

  function Lookup(table: seq<(string, string)>, key: string): (r: Option<string>)
    ensures r.Some? <==> exists i :: 0 <= i < |table| && table[i].0 == key
    ensures forall i :: 0 <= i < |table| && table[i].0 == key && KeysDistinct(table) ==> r == Some(table[i].1)
  {
    if table == [] then None
    else if table[0].0 == key then Some(table[0].1)
    else
      var rest := Lookup(table[1..], key);
      assert forall i :: 1 <= i < |table| ==> table[i] == table[1..][i - 1];
      rest
  }

  predicate KeysDistinct(table: seq<(string, string)>) {
    forall i, j :: 0 <= i < j < |table| ==> table[i].0 != table[j].0
  }

  /** The codes of the prompt table are distinct, as the keys of an object literal are. */
  lemma LanguageCodesDistinct()
    ensures KeysDistinct(LanguageNames)
  {
  }

  /** `getLanguagePrompt`: the language's name for a known code, "English" for any other. */
  function LanguagePrompt(lang: string): (r: string)
    ensures (forall i :: 0 <= i < |LanguageNames| ==> LanguageNames[i].0 != lang) ==> r == "English"
    ensures forall i :: 0 <= i < |LanguageNames| && LanguageNames[i].0 == lang ==> r == LanguageNames[i].1
  {
    LanguageCodesDistinct();
    var name := Lookup(LanguageNames, lang);
    if name.Some? then name.value else "English"
  }

  /** The script a language is recognised by: the code points of its Unicode block. */
  function Script(lang: string): (r: Option<(char, char)>)
    ensures r.Some? <==> lang in ["hi", "zh", "ja", "ko", "ar", "ru"]
  {
    if lang == "hi" then Some(('ऀ', 'ॿ'))
    else if lang == "zh" then Some(('一', '鿿'))
    else if lang == "ja" then Some(('぀', 'ヿ'))
    else if lang == "ko" then Some(('가', '힯'))
    else if lang == "ar" then Some(('؀', 'ۿ'))
    else if lang == "ru" then Some(('Ѐ', 'ӿ'))
    else None
  }

  /** Whether `s` holds a character from `lo` to `hi`. */
  function HasCharIn(s: string, lo: char, hi: char): (r: bool)
    ensures r <==> exists i :: 0 <= i < |s| && lo <= s[i] <= hi
  {
    if s == [] then false
    else
      var rest := HasCharIn(s[1..], lo, hi);
      assert forall i :: 1 <= i < |s| ==> s[i] == s[1..][i - 1];
      (lo <= s[0] <= hi) || rest
  }

  /**
   * `needsTranslation`: never for English; for a language with a known
   * script, exactly when the description has no character of it; for every
   * other language, always.
   */
  function NeedsTranslation(language: string, description: string): (r: bool)
    ensures language == "en" ==> !r
    ensures language != "en" && Script(language).None? ==> r
    ensures Script(language).Some? ==>
      (r <==> forall i :: 0 <= i < |description| ==> !(Script(language).value.0 <= description[i] <= Script(language).value.1))
  {
    language != "en" &&
    !(match Script(language)
      case Some(block) => HasCharIn(description, block.0, block.1)
      case None => false)
  }
}
