/**
 * The practice library: categories of practice sheets, and the titles and
 * keys read from the file names of the folk-tune collection
 * (`{Title}-in-{Key}.abc`).
 */
module PracticeLibrary {
  import opened Wrappers
  import opened Text

  datatype Difficulty = Beginner | Easy | Intermediate | Advanced | Expert

  datatype PracticeSheet = PracticeSheet(id: string, title: string, difficulty: Difficulty)

  datatype PracticeCategory = PracticeCategory(id: int, name: string, difficulty: Difficulty, sheets: seq<PracticeSheet>)

  datatype ButterworthEntry = ButterworthEntry(filename: string, title: string, key: string)

  // ---------------------------------------------------------------------
  // File names
  // ---------------------------------------------------------------------

  /** `s.replace(pattern, rep)` with a string pattern: only the first occurrence is replaced. */
  function ReplaceFirst(s: string, pattern: string, rep: string): (r: string)
  {
    var i := IndexOfFrom(s, pattern, 0);
    if i < 0 then s else s[..i] + rep + s[i + |pattern|..]
  }

  /** `filename.split('/').pop()?.replace('.abc', '') || ''`: the last path segment without its first ".abc". */
  function BaseName(filename: string): (b: string)
  {
    var segments := Split(filename, "/");
    ReplaceFirst(segments[|segments| - 1], ".abc", "")
  }

  const KEY_SEPARATOR := "-in-"

  /** The text after the last "-in-" of the base name (the whole name when there is none). */
  function LastPart(basename: string): (last: string)
  {
    var parts := Split(basename, KEY_SEPARATOR);
    parts[|parts| - 1]
  }

  /** `parts.length > 1 ? parts.pop() || 'C' : 'C'` */
  function KeyOf(basename: string): (key: string)
    ensures key != ""
  {
    var parts := Split(basename, KEY_SEPARATOR);
    if |parts| > 1 then (if parts[|parts| - 1] == "" then "C" else parts[|parts| - 1]) else "C"
  }

  /** `parts.join('-in-')` after the key, if any, was popped off. */
  function TitlePart(basename: string): (titlePart: string)
  {
    var parts := Split(basename, KEY_SEPARATOR);
    if |parts| > 1 then Join(parts[..|parts| - 1], KEY_SEPARATOR) else Join(parts, KEY_SEPARATOR)
  }

  /** `word.charAt(0).toUpperCase() + word.slice(1).toLowerCase()` */
  function Capitalize(word: string): (w: string)
  {
    if word == "" then "" else [Upper(word[0])] + LowerStr(word[1..])
  }

  /** Kebab case to title case: the words between '-' capitalised and joined with spaces. */
  function TitleCase(titlePart: string): (title: string)
  {
    Join(Map(Capitalize, Split(titlePart, "-")), " ")
  }

  /** `parseButterworthFilename` */
  function ParseButterworthFilename(filename: string): (e: ButterworthEntry)
    ensures e.filename == filename
  {
    var basename := BaseName(filename);
    ButterworthEntry(filename, TitleCase(TitlePart(basename)), KeyOf(basename))
  }

  /**
   * The key is what follows the last "-in-" ("C" when that is empty), and the
   * title comes from everything before it; without "-in-" the key is "C" and
   * the title comes from the whole name.
   */
  lemma KeyFollowsLastSeparator(basename: string)
    ensures !Contains(basename, KEY_SEPARATOR) ==> KeyOf(basename) == "C" && TitlePart(basename) == basename
    ensures Contains(basename, KEY_SEPARATOR) ==>
      && basename == TitlePart(basename) + KEY_SEPARATOR + LastPart(basename)
      && !Contains(LastPart(basename), KEY_SEPARATOR)
      && KeyOf(basename) == (if LastPart(basename) == "" then "C" else LastPart(basename))
  {
    var parts := Split(basename, KEY_SEPARATOR);
    SplitFindsSeparator(basename, KEY_SEPARATOR);
    JoinSplit(basename, KEY_SEPARATOR);
    SplitPartsAvoidSeparator(basename, KEY_SEPARATOR);
    if |parts| > 1 {
      var init := parts[..|parts| - 1];
      assert parts == init + [parts[|parts| - 1]];
      JoinSnoc(init, parts[|parts| - 1], KEY_SEPARATOR);
    }
  }

  /** Capitalising a word adds no space and removes none. */
  lemma CapitalizeKeepsSpaces(word: string)
    ensures (' ' in Capitalize(word)) <==> (' ' in word)
  {
    if word != "" {
      var w := Capitalize(word);
      assert w == [Upper(word[0])] + LowerStr(word[1..]);
      if ' ' in w {
        var i :| 0 <= i < |w| && w[i] == ' ';
        if i == 0 {
          assert word[0] == ' ';
        } else {
          assert LowerStr(word[1..])[i - 1] == ' ';
          assert word[i] == ' ';
        }
      }
      if ' ' in word {
        var i :| 0 <= i < |word| && word[i] == ' ';
        assert w[i] == ' ';
      }
    }
  }

  /** With no space in the name, the title's space-separated words are the capitalised kebab words. */
  lemma TitleWords(titlePart: string)
    requires ' ' !in titlePart
    ensures Split(TitleCase(titlePart), " ") == Map(Capitalize, Split(titlePart, "-"))
  {
    var words := Split(titlePart, "-");
    var capitalized := Map(Capitalize, words);
    SplitPartsInside(titlePart, "-");
    forall k | 0 <= k < |capitalized| ensures ' ' !in capitalized[k] {
      CapitalizeKeepsSpaces(words[k]);
    }
    SplitJoin(capitalized, ' ');
  }

  /** "Bonny-Green-in-C.abc" is the tune "Bonny Green" in C. */
  lemma ParseExample()
    ensures ParseButterworthFilename("Bonny-Green-in-C.abc") == ButterworthEntry("Bonny-Green-in-C.abc", "Bonny Green", "C")
  {
    BaseNameExample();
    KeyExample();
    TitleExample();
  }

  lemma BaseNameExample()
    ensures BaseName("Bonny-Green-in-C.abc") == "Bonny-Green-in-C"
  {
    NoPathExample();
    FirstAbcExample();
  }

  lemma NoPathExample()
    ensures Split("Bonny-Green-in-C.abc", "/") == ["Bonny-Green-in-C.abc"]
  {
    var filename := "Bonny-Green-in-C.abc";
    forall j | 0 <= j < |filename| ensures !OccursAt(filename, "/", j) {
      assert filename[j..j + 1][0] == filename[j] != '/';
    }
    assert IndexOfFrom(filename, "/", 0) == -1;
  }

  lemma FirstAbcExample()
    ensures ReplaceFirst("Bonny-Green-in-C.abc", ".abc", "") == "Bonny-Green-in-C"
  {
    var filename := "Bonny-Green-in-C.abc";
    assert OccursAt(filename, ".abc", 16);
    forall j | 0 <= j < 16 ensures !OccursAt(filename, ".abc", j) {
      assert filename[j..j + 4][0] == filename[j] != '.';
    }
    assert IndexOfFrom(filename, ".abc", 0) == 16;
  }

  lemma KeyExample()
    ensures KeyOf("Bonny-Green-in-C") == "C"
    ensures TitlePart("Bonny-Green-in-C") == "Bonny-Green"
  {
    var basename := "Bonny-Green-in-C";
    assert OccursAt(basename, KEY_SEPARATOR, 11);
    forall j | 0 <= j < 11 ensures !OccursAt(basename, KEY_SEPARATOR, j) {
      if j == 5 {
        assert basename[j..j + 4][1] == 'G';
      } else {
        assert basename[j..j + 4][0] == basename[j] != '-';
      }
    }
    assert IndexOfFrom(basename, KEY_SEPARATOR, 0) == 11;
    assert basename[..11] == "Bonny-Green" && basename[15..] == "C";
    assert Split("C", KEY_SEPARATOR) == ["C"];
    assert Split(basename, KEY_SEPARATOR) == ["Bonny-Green", "C"];
  }

  lemma TitleExample()
    ensures TitleCase("Bonny-Green") == "Bonny Green"
  {
    KebabExample();
    CapitalizeWordsExample();
    JoinExample();
  }

  lemma JoinExample()
    ensures Join(["Bonny", "Green"], " ") == "Bonny Green"
  {
    assert Join(["Bonny", "Green"], " ") == "Bonny" + " " + Join(["Green"], " ");
  }

  lemma CapitalizeWordsExample()
    ensures Map(Capitalize, ["Bonny", "Green"]) == ["Bonny", "Green"]
  {
    CapitalizeFixed("Bonny");
    CapitalizeFixed("Green");
    var words := ["Bonny", "Green"];
    assert Map(Capitalize, words) == [Capitalize(words[0])] + Map(Capitalize, words[1..]);
  }

  lemma KebabExample()
    ensures Split("Bonny-Green", "-") == ["Bonny", "Green"]
  {
    var title := "Bonny-Green";
    assert OccursAt(title, "-", 5);
    forall j | 0 <= j < 5 ensures !OccursAt(title, "-", j) {
      assert title[j..j + 1][0] == title[j] != '-';
    }
    assert IndexOfFrom(title, "-", 0) == 5;
    var green := "Green";
    forall j | 0 <= j < 5 ensures !OccursAt(green, "-", j) {
      assert green[j..j + 1][0] == green[j] != '-';
    }
    assert IndexOfFrom(green, "-", 0) == -1;
    assert title[..5] == "Bonny" && title[6..] == green;
  }

  /** A word already in title case is left as it is. */
  lemma CapitalizeFixed(word: string)
    requires word != [] && 'A' <= word[0] <= 'Z'
    requires forall k :: 1 <= k < |word| ==> 'a' <= word[k] <= 'z'
    ensures Capitalize(word) == word
  {
    assert LowerStr(word[1..]) == word[1..];
  }

  lemma CapitalizeExamples()
    ensures Capitalize("bONNY") == "Bonny"
    ensures Capitalize("") == ""
  {
    assert LowerStr("ONNY") == "onny";
  }

  // ---------------------------------------------------------------------
  // Categories
  // ---------------------------------------------------------------------

  /** `getCategoryById`: the first category with the id. */
  function CategoryById(categories: seq<PracticeCategory>, id: int): (c: Option<PracticeCategory>)
    ensures c.Some? ==> c.value in categories && c.value.id == id
    ensures c.None? <==> forall k :: 0 <= k < |categories| ==> categories[k].id != id
  {
    if categories == [] then None
    else if categories[0].id == id then Some(categories[0])
    else CategoryById(categories[1..], id)
  }

  /** The category found is the first one carrying the id. */
  lemma {:induction false} CategoryByIdIsFirst(categories: seq<PracticeCategory>, id: int, k: nat)
    requires k < |categories| && categories[k].id == id
    requires forall j :: 0 <= j < k ==> categories[j].id != id
    ensures CategoryById(categories, id) == Some(categories[k])
  {
    if k > 0 {
      CategoryByIdIsFirst(categories[1..], id, k - 1);
    }
  }

  /** Every sheet of every category, category by category. */
  function AllSheets(categories: seq<PracticeCategory>): (sheets: seq<PracticeSheet>)
  {
    if categories == [] then [] else categories[0].sheets + AllSheets(categories[1..])
  }

  /** `getTotalCurriculumSongs`: the `reduce` adding up the sheet counts, with its running `sum`. */
  function SongsFrom(categories: seq<PracticeCategory>, sum: nat): (n: nat)
  {
    if categories == [] then sum else SongsFrom(categories[1..], sum + |categories[0].sheets|)
  }

  function TotalCurriculumSongs(categories: seq<PracticeCategory>): (n: nat)
    ensures n == |AllSheets(categories)|
  {
    SongsFromAdds(categories, 0);
    SongsFrom(categories, 0)
  }

  /** The total is the number of sheets across the categories. */
  lemma TotalIsAllSheets(categories: seq<PracticeCategory>)
    ensures TotalCurriculumSongs(categories) == |AllSheets(categories)|
  {
    SongsFromAdds(categories, 0);
  }

  lemma {:induction false} SongsFromAdds(categories: seq<PracticeCategory>, sum: nat)
    ensures SongsFrom(categories, sum) == sum + |AllSheets(categories)|
  {
    if categories != [] {
      SongsFromAdds(categories[1..], sum + |categories[0].sheets|);
    }
  }
}
