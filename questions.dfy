/**
  The question bank and the per-session selector (interview/questions.go).
  The bank is an object holding the category map that LoadQuestions
  replaces; selection walks the fixed category order and takes a shuffled
  draw from each category.
 */
module Questions {
  import opened Wrappers
  import opened GoStrings
  import opened Models

  /** QuestionSelectionRules: how many questions each category contributes. */
  const QuestionSelectionRules: map<string, nat> := map[
    "Purpose of Study" := 2,
    "Academic Background" := 2,
    "University Choice" := 2,
    "Financial Capability" := 2,
    "Family/Sponsor Info" := 1,
    "Post-Graduation Plans" := 2,
    "Immigration Intent" := 1
  ]

  /** CategoryOrder: the order in which categories are asked. */
  const CategoryOrder: seq<string> := [
    "Purpose of Study",
    "Academic Background",
    "University Choice",
    "Financial Capability",
    "Family/Sponsor Info",
    "Post-Graduation Plans",
    "Immigration Intent"
  ]

  /** The two tables name the same seven categories, each once. */
  lemma TablesAgree()
    ensures Distinct(CategoryOrder)
    ensures forall c :: c in CategoryOrder <==> c in QuestionSelectionRules
  {
  }

  // ---------------------------------------------------------------------------
  // sanitizeCategory
  // ---------------------------------------------------------------------------

  predicate IsAsciiAlnum(c: char)
  {
    ('a' <= c <= 'z') || ('A' <= c <= 'Z') || ('0' <= c <= '9')
  }

  /** What one character of the category becomes in the ID suffix. */
  function SanitizedChar(c: char): (r: string)
    ensures |r| <= 1
    ensures IsAsciiAlnum(c) ==> r == [c]
    ensures !IsAsciiAlnum(c) && (c == ' ' || c == '/') ==> r == "_"
    ensures !IsAsciiAlnum(c) && c != ' ' && c != '/' ==> r == ""
  {
    if IsAsciiAlnum(c) then [c] else if c == ' ' || c == '/' then "_" else ""
  }

  /** The ID suffix of a category name. */
  function Sanitize(category: string): string
  {
    if category == [] then ""
    else Sanitize(category[..|category| - 1]) + SanitizedChar(category[|category| - 1])
  }

  /**
    Sanitize keeps ASCII letters and digits, turns ' ' and '/' into '_' and
    drops everything else, so the suffix is never longer than the name and
    holds only letters, digits and '_'.
   */
  lemma {:induction false} SanitizeShape(category: string)
    ensures |Sanitize(category)| <= |category|
    ensures forall i :: 0 <= i < |Sanitize(category)| ==> IsAsciiAlnum(Sanitize(category)[i]) || Sanitize(category)[i] == '_'
  {
    if category != [] {
      SanitizeShape(category[..|category| - 1]);
    }
  }

  /** The suffix is built character by character: the suffix of a concatenation is the concatenation of the suffixes. */
  lemma {:induction false} SanitizeAppend(a: string, b: string)
    ensures Sanitize(a + b) == Sanitize(a) + Sanitize(b)
  {
    if b == [] {
      assert a + b == a;
    } else {
      var init := b[..|b| - 1];
      assert (a + b)[..|a + b| - 1] == a + init;
      assert (a + b)[|a + b| - 1] == b[|b| - 1];
      SanitizeAppend(a, init);
    }
  }

  /** A name made only of ASCII letters and digits is its own suffix. */
  lemma {:induction false} SanitizeAlnum(category: string)
    requires forall i :: 0 <= i < |category| ==> IsAsciiAlnum(category[i])
    ensures Sanitize(category) == category
  {
    if category != [] {
      SanitizeAlnum(category[..|category| - 1]);
    }
  }

  /** A name that starts with a letter or digit gives a suffix that starts with it. */
  lemma {:induction false} SanitizeHead(category: string)
    requires category != [] && IsAsciiAlnum(category[0])
    ensures Sanitize(category) != [] && Sanitize(category)[0] == category[0]
  {
    if |category| > 1 {
      var init := category[..|category| - 1];
      assert init[0] == category[0];
      SanitizeHead(init);
    }
  }

  /** sanitizeCategory: the character-by-character accumulation. */
  method SanitizeCategory(category: string) returns (result: string)
    ensures result == Sanitize(category)
  {
    result := "";
    for i := 0 to |category|
      invariant result == Sanitize(category[..i])
    {
      var c := category[i];
      assert category[..i + 1][..i] == category[..i];
      if ('a' <= c <= 'z') || ('A' <= c <= 'Z') || ('0' <= c <= '9') {
        result := result + [c];
      } else if c == ' ' || c == '/' {
        result := result + "_";
      }
    }
    assert category[..|category|] == category;
  }

  // ---------------------------------------------------------------------------
  // Selection specification
  // ---------------------------------------------------------------------------

  /** The ID of the k-th selected question (1-based) of category `category`. */
  function QuestionId(k: nat, category: string): string
  {
    "q" + NatToString(k) + "_" + Sanitize(category)
  }

  /** How many questions `category` contributes given the bank `m`. */
  function Contribution(m: map<string, seq<string>>, category: string): (n: nat)
    ensures category in m && category in QuestionSelectionRules ==> n <= |m[category]|
  {
    if category !in QuestionSelectionRules || category !in m || |m[category]| == 0 then 0
    else if QuestionSelectionRules[category] > |m[category]| then |m[category]|
    else QuestionSelectionRules[category]
  }

  /** The category of every selection slot, for the first `k` categories of the order. */
  function SlotCategories(m: map<string, seq<string>>, k: nat): seq<string>
    requires k <= |CategoryOrder|
  {
    if k == 0 then []
    else SlotCategories(m, k - 1) + seq(Contribution(m, CategoryOrder[k - 1]), _ => CategoryOrder[k - 1])
  }

  /** Every category has at least as many questions as its rule asks for. */
  predicate FullyStocked(m: map<string, seq<string>>)
  {
    forall c :: c in QuestionSelectionRules ==> c in m && |m[c]| >= QuestionSelectionRules[c]
  }

  /** A fully stocked bank yields 2+2+2+2+1+2+1 = 12 slots. */
  lemma FullyStockedGivesTwelve(m: map<string, seq<string>>)
    requires FullyStocked(m)
    ensures |SlotCategories(m, |CategoryOrder|)| == 12
  {
    var n := |CategoryOrder|;
    assert |SlotCategories(m, 1)| == 2;
    assert |SlotCategories(m, 2)| == 4;
    assert |SlotCategories(m, 3)| == 6;
    assert |SlotCategories(m, 4)| == 8;
    assert |SlotCategories(m, 5)| == 9;
    assert |SlotCategories(m, 6)| == 11;
  }

  /** The texts of the selected questions of one category, in order. */
  function TextsOf(selected: seq<Question>, category: string): seq<string>
  {
    if selected == [] then []
    else
      TextsOf(selected[..|selected| - 1], category)
      + (if selected[|selected| - 1].category == category then [selected[|selected| - 1].text] else [])
  }

  lemma {:induction false} TextsOfAppend(a: seq<Question>, b: seq<Question>, category: string)
    ensures TextsOf(a + b, category) == TextsOf(a, category) + TextsOf(b, category)
  {
    if b != [] {
      var ab := a + b;
      assert ab[..|ab| - 1] == a + b[..|b| - 1];
      TextsOfAppend(a, b[..|b| - 1], category);
    } else {
      assert a + b == a;
    }
  }

  /** The question the selector emits for 0-based slot k. */
  function SlotQuestion(k: nat, category: string, text: string): Question
  {
    Question(QuestionId(k + 1, category), category, text, "", [], [])
  }

  /** Each question fills its slot: the slot's category and the ID numbered by its position. */
  ghost predicate SlotsFilled(selected: seq<Question>, slots: seq<string>)
  {
    && |selected| == |slots|
    && forall k :: 0 <= k < |selected| ==> selected[k] == SlotQuestion(k, slots[k], selected[k].text)
  }

  /** The bank's list for a category, empty when the category is absent. */
  function BankList(m: map<string, seq<string>>, category: string): seq<string>
  {
    if category in m then m[category] else []
  }

  /** No category's texts are used more often than the bank lists them. */
  ghost predicate TextsDrawn(selected: seq<Question>, m: map<string, seq<string>>)
  {
    forall c :: multiset(TextsOf(selected, c)) <= multiset(BankList(m, c))
  }

  /**
    What a selection drawn from bank `m` is: one question per slot, in slot
    order, each carrying its slot's category and the ID numbered by its
    position, and no category's texts used more often than the bank lists
    them (so distinct slots take distinct positions of the list).
   */
  ghost predicate IsSelectionFrom(selected: seq<Question>, m: map<string, seq<string>>)
  {
    SlotsFilled(selected, SlotCategories(m, |CategoryOrder|)) && TextsDrawn(selected, m)
  }

  // ---------------------------------------------------------------------------
  // ID uniqueness
  // ---------------------------------------------------------------------------

  predicate AllDigits(s: string)
  {
    forall i :: 0 <= i < |s| ==> IsDigit(s[i])
  }

  lemma CharsOfJoin(a: string, x: string, i: nat)
    ensures |a + "_" + x| > |a|
    ensures (a + "_" + x)[|a|] == '_'
    ensures i < |a| ==> (a + "_" + x)[i] == a[i]
    ensures (a + "_" + x)[..|a|] == a
  {
  }

  /** A digit string followed by '_' is determined by the text it heads. */
  lemma DigitsBeforeUnderscore(a: string, x: string, b: string, y: string)
    requires AllDigits(a) && AllDigits(b)
    requires a + "_" + x == b + "_" + y
    ensures a == b
  {
    CharsOfJoin(a, x, |b|);
    CharsOfJoin(b, y, |a|);
    if |a| < |b| {
      assert false;
    } else if |b| < |a| {
      assert false;
    }
  }

  /** Distinct positions give distinct question IDs, whatever the categories. */
  lemma QuestionIdInjective(j: nat, cj: string, k: nat, ck: string)
    requires QuestionId(j, cj) == QuestionId(k, ck)
    ensures j == k
  {
    var sj, sk := NatToString(j), NatToString(k);
    var tj := sj + "_" + Sanitize(cj);
    var tk := sk + "_" + Sanitize(ck);
    assert QuestionId(j, cj) == "q" + tj;
    assert QuestionId(k, ck) == "q" + tk;
    assert tj == QuestionId(j, cj)[1..];
    assert tk == QuestionId(k, ck)[1..];
    DigitsBeforeUnderscore(sj, Sanitize(cj), sk, Sanitize(ck));
    NatToStringInjective(j, k);
  }

  /** The questions filling the slots have pairwise distinct IDs. */
  lemma SlotIdsDistinct(selected: seq<Question>, slots: seq<string>)
    requires SlotsFilled(selected, slots)
    ensures forall j, k :: 0 <= j < k < |selected| ==> selected[j].id != selected[k].id
  {
    forall j, k | 0 <= j < k < |selected|
      ensures selected[j].id != selected[k].id
    {
      var qj, qk := selected[j], selected[k];
      assert qj.id == QuestionId(j + 1, slots[j]);
      assert qk.id == QuestionId(k + 1, slots[k]);
      if qj.id == qk.id {
        QuestionIdInjective(j + 1, slots[j], k + 1, slots[k]);
      }
    }
  }

  /** Every slot's category is one of the ordered categories. */
  lemma {:induction false} SlotCategoriesInOrder(m: map<string, seq<string>>, k: nat)
    requires k <= |CategoryOrder|
    ensures forall c :: c in SlotCategories(m, k) ==> c in CategoryOrder
  {
    if k > 0 {
      SlotCategoriesInOrder(m, k - 1);
    }
  }

  /** Every ordered category name starts with a capital letter. */
  lemma CategoriesCapitalised()
    ensures forall c :: c in CategoryOrder ==> c != [] && 'A' <= c[0] <= 'Z'
  {
  }

  /** An ID whose suffix starts with a capital letter is never "q1_purpose". */
  lemma CapitalSuffixNotFirst(k: nat, category: string)
    requires Sanitize(category) != [] && 'A' <= Sanitize(category)[0] <= 'Z'
    ensures QuestionId(k, category) != FirstQuestionID
  {
    var digits := NatToString(k);
    var suffix := Sanitize(category);
    var id := QuestionId(k, category);
    assert id == "q" + (digits + "_" + suffix);
    CharsOfJoin(digits, suffix, 1);
    if |digits| == 1 {
      assert id[3] == suffix[0];
      assert FirstQuestionID[3] == 'p';
    } else {
      assert id[2] == digits[1];
      assert FirstQuestionID[2] == '_';
    }
  }

  /**
    No selected question has the ID "q1_purpose" that a new session starts
    on: every suffix begins with the capital of its category name.
   */
  lemma SelectionNeverHasFirstQuestionId(selected: seq<Question>, m: map<string, seq<string>>)
    requires IsSelectionFrom(selected, m)
    ensures forall k :: 0 <= k < |selected| ==> selected[k].id != FirstQuestionID
  {
    var slots := SlotCategories(m, |CategoryOrder|);
    SlotCategoriesInOrder(m, |CategoryOrder|);
    CategoriesCapitalised();
    forall k | 0 <= k < |selected|
      ensures selected[k].id != FirstQuestionID
    {
      var c := slots[k];
      assert c in slots;
      assert selected[k].id == QuestionId(k + 1, c);
      SanitizeHead(c);
      CapitalSuffixNotFirst(k + 1, c);
    }
  }

  /** The IDs of one selection are pairwise distinct. */
  lemma SelectionIdsDistinct(selected: seq<Question>, m: map<string, seq<string>>)
    requires IsSelectionFrom(selected, m)
    ensures forall j, k :: 0 <= j < k < |selected| ==> selected[j].id != selected[k].id
  {
    SlotIdsDistinct(selected, SlotCategories(m, |CategoryOrder|));
  }

  // ---------------------------------------------------------------------------
  // The bank
  // ---------------------------------------------------------------------------

  datatype LoadError = MissingCategory(category: string)

  /** Go's rand.Shuffle: Fisher-Yates, with the random index left open. */
  method Shuffle(a: array<string>)
    modifies a
    ensures multiset(a[..]) == multiset(old(a[..]))
  {
    var i := a.Length;
    while i > 1
      invariant 0 <= i <= a.Length
      invariant multiset(a[..]) == multiset(old(a[..]))
      decreases i
    {
      i := i - 1;
      var j :| 0 <= j <= i;
      a[i], a[j] := a[j], a[i];
    }
  }

  /** The loop invariant of the selector after the first `i` categories. */
  ghost predicate Selected(selected: seq<Question>, m: map<string, seq<string>>, i: nat)
    requires i <= |CategoryOrder|
  {
    && SlotsFilled(selected, SlotCategories(m, i))
    && TextsDrawn(selected, m)
    && (forall c :: c !in CategoryOrder[..i] ==> TextsOf(selected, c) == [])
  }

  class QuestionBank {
    /** QuestionsByCategory: category name to its question texts. */
    var questionsByCategory: map<string, seq<string>>

    /** The bank before any load: Go's nil map. */
    constructor ()
      ensures questionsByCategory == map[]
    {
      questionsByCategory := map[];
    }

    /**
      LoadQuestions, from the parsed file onward: the bank is replaced by a
      copy of `categories` first, then every required category is checked,
      in the map's unspecified order; the first one missing is reported, and
      the new bank stays installed either way.
     */
    method LoadQuestions(categories: map<string, seq<string>>) returns (err: Option<LoadError>)
      modifies this
      ensures questionsByCategory == categories
      ensures err.None? <==> forall c :: c in QuestionSelectionRules ==> c in categories
      ensures err.Some? ==> err.value.category in QuestionSelectionRules && err.value.category !in categories
    {
      var copied: map<string, seq<string>> := map[];
      var pending := categories.Keys;
      while pending != {}
        invariant pending <= categories.Keys
        invariant copied.Keys == categories.Keys - pending
        invariant forall c :: c in copied ==> copied[c] == categories[c]
        decreases pending
      {
        var c :| c in pending;
        copied := copied[c := categories[c]];
        pending := pending - {c};
      }
      assert copied == categories;
      questionsByCategory := copied;
      var required := QuestionSelectionRules.Keys;
      while required != {}
        invariant required <= QuestionSelectionRules.Keys
        invariant forall c :: c in QuestionSelectionRules && c !in required ==> c in categories
        decreases required
      {
        var c :| c in required;
        if c !in questionsByCategory {
          return Some(MissingCategory(c));
        }
        required := required - {c};
      }
      return None;
    }

    /**
      SelectQuestionsForSession: walk the category order; a category without
      a rule, missing from the bank or with no questions is skipped; the
      others contribute the first min(rule, available) texts of a shuffled
      copy, each numbered by its position in the whole selection.
     */
    method SelectQuestionsForSession() returns (selected: seq<Question>)
      ensures IsSelectionFrom(selected, questionsByCategory)
    {
      var m := questionsByCategory;
      selected := [];
      for i := 0 to |CategoryOrder|
        invariant Selected(selected, m, i)
      {
        var category := CategoryOrder[i];
        if category !in QuestionSelectionRules || category !in m || |m[category]| == 0 {
          SkipCategory(selected, m, i);
          continue;
        }
        selected := DrawCategory(selected, m, i);
      }
    }
  }

  /**
    One step of the selector: draw min(rule, available) of the category's
    texts and append them as numbered questions.
   */
  method DrawCategory(selected: seq<Question>, m: map<string, seq<string>>, i: nat) returns (r: seq<Question>)
    requires i < |CategoryOrder| && Selected(selected, m, i)
    requires CategoryOrder[i] in QuestionSelectionRules && CategoryOrder[i] in m && |m[CategoryOrder[i]]| > 0
    ensures Selected(r, m, i + 1)
  {
    var category := CategoryOrder[i];
    var taken := DrawTexts(m[category], QuestionSelectionRules[category]);
    var suffix := SanitizeCategory(category);
    r := AppendSlots(selected, category, suffix, taken);
    TakeCategory(selected, r, m, i, taken);
  }

  /** Shuffle a copy of `questions` and keep its first min(count, available) texts. */
  method DrawTexts(questions: seq<string>, count: nat) returns (taken: seq<string>)
    ensures |taken| == if count > |questions| then |questions| else count
    ensures multiset(taken) <= multiset(questions)
  {
    var available := new string[|questions|](j requires 0 <= j < |questions| => questions[j]);
    assert available[..] == questions;
    Shuffle(available);
    var toTake := count;
    if toTake > available.Length {
      toTake := available.Length;
    }
    taken := available[..toTake];
    assert available[..] == taken + available[toTake..];
  }

  /** The inner loop of the selector: one question per drawn text, numbered on. */
  method AppendSlots(selected: seq<Question>, category: string, suffix: string, texts: seq<string>)
    returns (r: seq<Question>)
    requires suffix == Sanitize(category)
    ensures |r| == |selected| + |texts| && r[..|selected|] == selected
    ensures forall k :: |selected| <= k < |r| ==> r[k] == SlotQuestion(k, category, texts[k - |selected|])
  {
    r := selected;
    for j := 0 to |texts|
      invariant |r| == |selected| + j
      invariant r[..|selected|] == selected
      invariant forall k :: |selected| <= k < |r| ==> r[k] == SlotQuestion(k, category, texts[k - |selected|])
    {
      var questionId := "q" + NatToString(|r| + 1) + "_" + suffix;
      var q := Question(questionId, category, texts[j], "", [], []);
      assert q == SlotQuestion(|r|, category, texts[j]);
      r := r + [q];
    }
  }

  lemma SkipCategory(selected: seq<Question>, m: map<string, seq<string>>, i: nat)
    requires i < |CategoryOrder| && Selected(selected, m, i)
    requires Contribution(m, CategoryOrder[i]) == 0
    ensures Selected(selected, m, i + 1)
  {
    assert SlotCategories(m, i + 1) == SlotCategories(m, i);
    forall c | c !in CategoryOrder[..i + 1]
      ensures TextsOf(selected, c) == []
    {
      assert c !in CategoryOrder[..i];
    }
  }

  /** The texts of a block of questions all of one category. */
  lemma {:induction false} TextsOfBlock(block: seq<Question>, category: string, texts: seq<string>, other: string)
    requires |block| == |texts|
    requires forall k :: 0 <= k < |block| ==> block[k].category == category && block[k].text == texts[k]
    ensures TextsOf(block, category) == texts
    ensures other != category ==> TextsOf(block, other) == []
  {
    if block != [] {
      TextsOfBlock(block[..|block| - 1], category, texts[..|texts| - 1], other);
      assert texts == texts[..|texts| - 1] + [texts[|texts| - 1]];
    }
  }

  /** Appending a block of slots for one category keeps the slots filled. */
  lemma FillBlock(before: seq<Question>, block: seq<Question>, prevSlots: seq<string>, category: string, taken: seq<string>)
    requires SlotsFilled(before, prevSlots)
    requires |block| == |taken|
    requires forall k :: 0 <= k < |block| ==> block[k] == SlotQuestion(|before| + k, category, taken[k])
    ensures SlotsFilled(before + block, prevSlots + seq(|taken|, _ => category))
  {
    var all, slots := before + block, prevSlots + seq(|taken|, _ => category);
    forall k | 0 <= k < |all|
      ensures all[k] == SlotQuestion(k, slots[k], all[k].text)
    {
      if k < |before| {
        assert all[k] == before[k] && slots[k] == prevSlots[k];
      } else {
        assert all[k] == block[k - |before|] && slots[k] == category;
      }
    }
  }

  /** The block of one category draws its texts from that category only. */
  lemma DrawBlock(before: seq<Question>, block: seq<Question>, m: map<string, seq<string>>, i: nat, taken: seq<string>)
    requires i < |CategoryOrder|
    requires TextsDrawn(before, m)
    requires forall c :: c !in CategoryOrder[..i] ==> TextsOf(before, c) == []
    requires multiset(taken) <= multiset(BankList(m, CategoryOrder[i]))
    requires |block| == |taken|
    requires forall k :: 0 <= k < |block| ==> block[k].category == CategoryOrder[i] && block[k].text == taken[k]
    ensures TextsDrawn(before + block, m)
    ensures forall c :: c !in CategoryOrder[..i + 1] ==> TextsOf(before + block, c) == []
  {
    var category := CategoryOrder[i];
    assert category !in CategoryOrder[..i] by {
      TablesAgree();
    }
    forall c
      ensures TextsOf(before + block, c) == TextsOf(before, c) + (if c == category then taken else [])
    {
      TextsOfAppend(before, block, c);
      TextsOfBlock(block, category, taken, c);
    }
    forall c | c !in CategoryOrder[..i + 1]
      ensures TextsOf(before + block, c) == []
    {
      assert c !in CategoryOrder[..i];
      assert c != category;
    }
  }

  lemma TakeCategory(before: seq<Question>, selected: seq<Question>, m: map<string, seq<string>>, i: nat, taken: seq<string>)
    requires i < |CategoryOrder| && Selected(before, m, i)
    requires CategoryOrder[i] in m
    requires |taken| == Contribution(m, CategoryOrder[i])
    requires multiset(taken) <= multiset(m[CategoryOrder[i]])
    requires |selected| == |before| + |taken| && selected[..|before|] == before
    requires forall k :: |before| <= k < |selected| ==> selected[k] == SlotQuestion(k, CategoryOrder[i], taken[k - |before|])
    ensures Selected(selected, m, i + 1)
  {
    var category := CategoryOrder[i];
    var block := selected[|before|..];
    assert selected == before + block;
    assert SlotCategories(m, i + 1) == SlotCategories(m, i) + seq(|taken|, _ => category);
    forall k | 0 <= k < |block|
      ensures block[k] == SlotQuestion(|before| + k, category, taken[k])
    {
      assert block[k] == selected[|before| + k];
    }
    FillBlock(before, block, SlotCategories(m, i), category, taken);
    DrawBlock(before, block, m, i, taken);
  }
}
