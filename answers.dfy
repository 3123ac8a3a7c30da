/**
 * `ui_qa`: render each question with a text area and record the text area's
 * value in the session's answer dictionary, keyed by the question text.
 * The text areas' current contents are an input: a map from widget key to
 * what the user has typed.
 */
module Answers {
  import opened Wrappers
  import opened PyStr

  /** One item of a category's question list: a dictionary, or any other value given by its `str()`. */
  datatype QuestionItem = Record(fields: map<string, string>) | Plain(shown: string)

  /** A question text as a dictionary key: `None` when a dictionary item has no "Question". */
  datatype QText = NoText | Text(s: string)

  /** The generated question set: categories in dictionary order, each with its question list. */
  type QuestionSet = seq<(string, seq<QuestionItem>)>

  type AnswerMap = map<QText, string>

  /** `q.get("Question")` for a dictionary, `str(q)` otherwise. */
  function QuestionText(q: QuestionItem): QText {
    match q
    case Record(fields) => if "Question" in fields then Text(fields["Question"]) else NoText
    case Plain(shown) => Text(shown)
  }

  /** The question text as an f-string shows it. */
  function Shown(t: QText): string {
    match t
    case NoText => "None"
    case Text(s) => s
  }

  /** The widget key `answer_{category}_{i}`. */
  function WidgetKey(category: string, i: nat): string {
    "answer_" + category + "_" + NatToString(i)
  }

  /** What the page shows, in order. */
  datatype Element = Subheader(title: string) | Markdown(text: string) | TextArea(caption: string, key: string)

  /** One question on the page: its text at 1-based index `i`, then its text area. */
  function QuestionElements(category: string, i: nat, q: QuestionItem): seq<Element> {
    [Markdown("**Q" + NatToString(i) + ": " + Shown(QuestionText(q)) + "**"),
     TextArea("Answer for Q" + NatToString(i), WidgetKey(category, i))]
  }

  function CategoryElements(category: string, items: seq<QuestionItem>): seq<Element>
    decreases |items|
  {
    if items == [] then []
    else CategoryElements(category, items[..|items| - 1]) + QuestionElements(category, |items|, items[|items| - 1])
  }

  /** The whole page `ui_qa` renders for a question set. */
  function Page(questions: QuestionSet): seq<Element>
    decreases |questions|
  {
    if questions == [] then []
    else
      var (category, items) := questions[|questions| - 1];
      Page(questions[..|questions| - 1]) + [Subheader(category)] + CategoryElements(category, items)
  }

  /** One text area: its category, its 1-based index and the question text its value is stored under. */
  datatype Slot = Slot(category: string, index: nat, text: QText) {
    function Key(): string {
      WidgetKey(category, index)
    }
  }

  /** The text areas of one category, numbered from 1 as `enumerate(q_list, start=1)` does. */
  function CategorySlots(category: string, items: seq<QuestionItem>): seq<Slot>
  {
    seq(|items|, j requires 0 <= j < |items| => Slot(category, j + 1, QuestionText(items[j])))
  }

  /** Every text area on the page, in rendering order. */
  function Slots(questions: QuestionSet): seq<Slot>
    decreases |questions|
  {
    if questions == [] then []
    else
      var (category, items) := questions[|questions| - 1];
      Slots(questions[..|questions| - 1]) + CategorySlots(category, items)
  }

  /** `d.get(k, "")`. */
  function Lookup(m: AnswerMap, t: QText): string {
    if t in m then m[t] else ""
  }

  /** `st.text_area(..., value=default, key=key)`: what the user typed into that widget, or the default. */
  function TextAreaValue(widgets: map<string, string>, key: string, default: string): string {
    if key in widgets then widgets[key] else default
  }

  /** One assignment `user_answer[q_text] = st.text_area(..., value=user_answer.get(q_text, ""), key=key)`. */
  function Record1(m: AnswerMap, s: Slot, widgets: map<string, string>): AnswerMap {
    m[s.text := TextAreaValue(widgets, s.Key(), Lookup(m, s.text))]
  }

  /** The answer map after recording every slot in order. */
  function RecordAll(m: AnswerMap, slots: seq<Slot>, widgets: map<string, string>): AnswerMap
    decreases |slots|
  {
    if slots == [] then m
    else Record1(RecordAll(m, slots[..|slots| - 1], widgets), slots[|slots| - 1], widgets)
  }

  function Texts(slots: seq<Slot>): set<QText> {
    set k | 0 <= k < |slots| :: slots[k].text
  }

  /** The value of the last slot for `t` whose widget holds input, if any. */
  function LastInput(slots: seq<Slot>, widgets: map<string, string>, t: QText): Option<string>
    decreases |slots|
  {
    if slots == [] then None
    else
      var s := slots[|slots| - 1];
      if s.text == t && s.Key() in widgets then Some(widgets[s.Key()]) else LastInput(slots[..|slots| - 1], widgets, t)
  }

  /** The per-session state `ui_qa` reads and writes. */
  class Session {
    /** `st.session_state.user_answer`; `None` until the first call creates it. */
    var userAnswer: Option<AnswerMap>

    constructor ()
      ensures userAnswer == None
    {
      userAnswer := None;
    }

    /** `ui_qa`: returns the answer map it leaves in the session, and the page it renders. */
    method UiQa(questions: QuestionSet, widgets: map<string, string>) returns (answers: AnswerMap, page: seq<Element>)
      modifies this
      ensures answers == RecordAll(old(userAnswer).GetOr(map[]), Slots(questions), widgets)
      ensures userAnswer == Some(answers)
      ensures page == Page(questions)
    {
      if userAnswer.None? {
        userAnswer := Some(map[]);
      }
      ghost var start := userAnswer.value;
      page := [];
      assert questions[..0] == [];
      var c := 0;
      while c < |questions|
        invariant 0 <= c <= |questions|
        invariant userAnswer.Some? && userAnswer.value == RecordAll(start, Slots(questions[..c]), widgets)
        invariant page == Page(questions[..c])
      {
        var category := questions[c].0;
        var qList := questions[c].1;
        page := page + [Subheader(category)];
        var elements := AskCategory(category, qList, widgets);
        page := page + elements;
        PageStep(questions, c);
        RecordAllAppend(start, Slots(questions[..c]), CategorySlots(category, qList), widgets);
        c := c + 1;
      }
      assert questions[..|questions|] == questions;
      answers := userAnswer.value;
    }

    /** The inner loop of `ui_qa`: the questions of one category, numbered from 1. */
    method AskCategory(category: string, qList: seq<QuestionItem>, widgets: map<string, string>) returns (elements: seq<Element>)
      requires userAnswer.Some?
      modifies this
      ensures userAnswer == Some(RecordAll(old(userAnswer).value, CategorySlots(category, qList), widgets))
      ensures elements == CategoryElements(category, qList)
    {
      ghost var start := userAnswer.value;
      elements := [];
      assert qList[..0] == [];
      var i := 1;
      while i <= |qList|
        invariant 1 <= i <= |qList| + 1
        invariant userAnswer.Some?
        invariant userAnswer.value == RecordAll(start, CategorySlots(category, qList[..i - 1]), widgets)
        invariant elements == CategoryElements(category, qList[..i - 1])
      {
        var q := qList[i - 1];
        var qText := QuestionText(q);
        elements := elements + [Markdown("**Q" + NatToString(i) + ": " + Shown(qText) + "**")];
        var key := WidgetKey(category, i);
        elements := elements + [TextArea("Answer for Q" + NatToString(i), key)];
        var m := userAnswer.value;
        userAnswer := Some(m[qText := TextAreaValue(widgets, key, Lookup(m, qText))]);
        CategoryStep(start, category, qList, i, widgets);
        i := i + 1;
      }
      assert qList[..|qList|] == qList;
    }
  }

  /** Extending the rendered prefix of the question set by one category. */
  lemma PageStep(questions: QuestionSet, c: nat)
    requires c < |questions|
    ensures Page(questions[..c + 1]) == Page(questions[..c]) + [Subheader(questions[c].0)] + CategoryElements(questions[c].0, questions[c].1)
    ensures Slots(questions[..c + 1]) == Slots(questions[..c]) + CategorySlots(questions[c].0, questions[c].1)
  {
    assert questions[..c + 1][..c] == questions[..c];
  }

  /** Extending the rendered prefix of one category by its `i`-th question. */
  lemma CategoryStep(start: AnswerMap, category: string, items: seq<QuestionItem>, i: nat, widgets: map<string, string>)
    requires 1 <= i <= |items|
    ensures var s := Slot(category, i, QuestionText(items[i - 1]));
      RecordAll(start, CategorySlots(category, items[..i]), widgets)
        == Record1(RecordAll(start, CategorySlots(category, items[..i - 1]), widgets), s, widgets)
    ensures CategoryElements(category, items[..i])
        == CategoryElements(category, items[..i - 1]) + QuestionElements(category, i, items[i - 1])
  {
    var s := Slot(category, i, QuestionText(items[i - 1]));
    var before := CategorySlots(category, items[..i - 1]);
    assert items[..i][..i - 1] == items[..i - 1];
    assert CategorySlots(category, items[..i]) == before + [s];
    assert (before + [s])[..|before|] == before;
  }

  /** Recording two runs of slots in turn is recording their concatenation. */
  lemma {:induction false} RecordAllAppend(m: AnswerMap, a: seq<Slot>, b: seq<Slot>, widgets: map<string, string>)
    ensures RecordAll(m, a + b, widgets) == RecordAll(RecordAll(m, a, widgets), b, widgets)
    decreases |b|
  {
    if b == [] {
      assert a + b == a;
    } else {
      assert (a + b)[..|a + b| - 1] == a + b[..|b| - 1];
      RecordAllAppend(m, a, b[..|b| - 1], widgets);
    }
  }

  // ---------------------------------------------------------------------
  // Properties

  /** A bare string and a dictionary whose "Question" is that string give the same text, shown the same way. */
  lemma BareAndRecordQuestionsAgree(s: string, fields: map<string, string>, category: string, i: nat)
    requires "Question" in fields && fields["Question"] == s
    ensures QuestionText(Plain(s)) == QuestionText(Record(fields)) == Text(s)
    ensures QuestionElements(category, i, Plain(s)) == QuestionElements(category, i, Record(fields))
  {
  }

  /** Widget keys differ for different (category, index) pairs: `str(i)` has no underscore, so the
      last underscore of a key separates the category from the index. */
  lemma WidgetKeyInjective(c1: string, i1: nat, c2: string, i2: nat)
    requires WidgetKey(c1, i1) == WidgetKey(c2, i2)
    ensures c1 == c2 && i1 == i2
  {
    var k := WidgetKey(c1, i1);
    var d1, d2 := NatToString(i1), NatToString(i2);
    assert k == ("answer_" + c1) + "_" + d1 && k == ("answer_" + c2) + "_" + d2;
    AfterLastUnderscoreOf("answer_" + c1, d1);
    AfterLastUnderscoreOf("answer_" + c2, d2);
    NatToStringInjective(i1, i2);
    assert "answer_" + c1 == k[..|k| - |d1| - 1] == "answer_" + c2;
    assert c1 == ("answer_" + c1)[7..] == ("answer_" + c2)[7..] == c2;
  }

  /** The characters after the last underscore of `s` (all of `s` when it has none). */
  function AfterLastUnderscore(s: string): string {
    if s == [] || s[|s| - 1] == '_' then [] else AfterLastUnderscore(s[..|s| - 1]) + [s[|s| - 1]]
  }

  lemma {:induction false} AfterLastUnderscoreOf(p: string, d: string)
    requires forall k :: 0 <= k < |d| ==> d[k] != '_'
    ensures AfterLastUnderscore(p + "_" + d) == d
  {
    var s := p + "_" + d;
    if d != [] {
      var n := |d| - 1;
      assert s[..|s| - 1] == p + "_" + d[..n];
      AfterLastUnderscoreOf(p, d[..n]);
      assert d[..n] + [d[n]] == d;
    }
  }

  lemma {:induction false} RecordAllKeys(m: AnswerMap, slots: seq<Slot>, widgets: map<string, string>)
    ensures RecordAll(m, slots, widgets).Keys == m.Keys + Texts(slots)
    decreases |slots|
  {
    if slots != [] {
      var init := slots[..|slots| - 1];
      RecordAllKeys(m, init, widgets);
      assert Texts(slots) == Texts(init) + {slots[|slots| - 1].text} by {
        forall t | t in Texts(slots) ensures t in Texts(init) + {slots[|slots| - 1].text} {
          var k :| 0 <= k < |slots| && slots[k].text == t;
          if k < |slots| - 1 { assert init[k] == slots[k]; }
        }
        forall t | t in Texts(init) ensures t in Texts(slots) {
          var k :| 0 <= k < |init| && init[k].text == t;
          assert slots[k] == init[k];
        }
      }
    }
  }

  /** The stored answer for any text: the last input typed for it, else what was stored before
      (the empty string when nothing was). */
  lemma {:induction false} RecordAllLookup(m: AnswerMap, slots: seq<Slot>, widgets: map<string, string>, t: QText)
    ensures Lookup(RecordAll(m, slots, widgets), t) == LastInput(slots, widgets, t).GetOr(Lookup(m, t))
    decreases |slots|
  {
    if slots != [] {
      RecordAllLookup(m, slots[..|slots| - 1], widgets, t);
    }
  }

  /** The `j`-th question (0-based) of category `c` has a slot, numbered `j + 1`. */
  lemma {:induction false} QuestionHasSlot(questions: QuestionSet, c: nat, j: nat)
    requires c < |questions| && j < |questions[c].1|
    ensures Slot(questions[c].0, j + 1, QuestionText(questions[c].1[j])) in Slots(questions)
    decreases |questions|
  {
    var n := |questions| - 1;
    var init := questions[..n];
    if c < n {
      assert init[c] == questions[c];
      QuestionHasSlot(init, c, j);
    } else {
      assert CategorySlots(questions[n].0, questions[n].1)[j] == Slot(questions[c].0, j + 1, QuestionText(questions[c].1[j]));
    }
  }

  /** After `ui_qa` every question text is a key, each once, and keys already present stay. */
  lemma EveryQuestionHasAnEntry(m: AnswerMap, questions: QuestionSet, widgets: map<string, string>, c: nat, j: nat)
    requires c < |questions| && j < |questions[c].1|
    ensures QuestionText(questions[c].1[j]) in RecordAll(m, Slots(questions), widgets)
    ensures RecordAll(m, Slots(questions), widgets).Keys == m.Keys + Texts(Slots(questions))
  {
    RecordAllKeys(m, Slots(questions), widgets);
    QuestionHasSlot(questions, c, j);
  }

  predicate DistinctCategories(questions: QuestionSet) {
    forall a, b :: 0 <= a < b < |questions| ==> questions[a].0 != questions[b].0
  }

  function Categories(questions: QuestionSet): set<string> {
    set c | 0 <= c < |questions| :: questions[c].0
  }

  lemma {:induction false} SlotCategories(questions: QuestionSet)
    ensures forall k :: 0 <= k < |Slots(questions)| ==> Slots(questions)[k].category in Categories(questions)
    decreases |questions|
  {
    if questions != [] {
      var n := |questions| - 1;
      var init := questions[..n];
      SlotCategories(init);
      var slots := Slots(questions);
      var head := Slots(init);
      forall k | 0 <= k < |slots| ensures slots[k].category in Categories(questions) {
        if k < |head| {
          assert slots[k] == head[k];
          var c :| 0 <= c < |init| && init[c].0 == slots[k].category;
          assert questions[c] == init[c];
        } else {
          assert slots[k] == CategorySlots(questions[n].0, questions[n].1)[k - |head|];
          assert slots[k].category == questions[n].0;
        }
      }
    }
  }

  /** When the categories are distinct (as the keys of a dictionary are), no two text areas on
      the page share a (category, index) pair, and therefore none share a widget key. */
  lemma {:induction false} WidgetKeysDistinct(questions: QuestionSet)
    requires DistinctCategories(questions)
    ensures forall a, b :: 0 <= a < b < |Slots(questions)| ==> Slots(questions)[a].Key() != Slots(questions)[b].Key()
    decreases |questions|
  {
    if questions != [] {
      var n := |questions| - 1;
      var init := questions[..n];
      var last := CategorySlots(questions[n].0, questions[n].1);
      var head := Slots(init);
      var slots := Slots(questions);
      assert slots == head + last;
      WidgetKeysDistinct(init);
      SlotCategories(init);
      forall a, b | 0 <= a < b < |slots| ensures slots[a].Key() != slots[b].Key() {
        if b < |head| {
          assert slots[a] == head[a] && slots[b] == head[b];
        } else if a < |head| {
          assert slots[a] == head[a] && slots[b] == last[b - |head|];
          var c :| 0 <= c < |init| && init[c].0 == slots[a].category;
          assert questions[c] == init[c];
          assert slots[a].category != slots[b].category;
          WidgetKeyDiffers(slots[a].category, slots[a].index, slots[b].category, slots[b].index);
        } else {
          assert slots[a] == last[a - |head|] && slots[b] == last[b - |head|];
          assert slots[a].index != slots[b].index;
          WidgetKeyDiffers(slots[a].category, slots[a].index, slots[b].category, slots[b].index);
        }
      }
    }
  }

  /** Different (category, index) pairs give different widget keys. */
  lemma WidgetKeyDiffers(c1: string, i1: nat, c2: string, i2: nat)
    requires c1 != c2 || i1 != i2
    ensures WidgetKey(c1, i1) != WidgetKey(c2, i2)
  {
    if WidgetKey(c1, i1) == WidgetKey(c2, i2) {
      WidgetKeyInjective(c1, i1, c2, i2);
    }
  }

  /** Entries for texts that are not questions of this set are left as they were. */
  lemma OtherEntriesUnchanged(m: AnswerMap, slots: seq<Slot>, widgets: map<string, string>, t: QText)
    requires t in m && t !in Texts(slots)
    ensures t in RecordAll(m, slots, widgets) && RecordAll(m, slots, widgets)[t] == m[t]
  {
    RecordAllKeys(m, slots, widgets);
    RecordAllLookup(m, slots, widgets, t);
    NoSlotNoInput(slots, widgets, t);
  }

  lemma {:induction false} NoSlotNoInput(slots: seq<Slot>, widgets: map<string, string>, t: QText)
    requires t !in Texts(slots)
    ensures LastInput(slots, widgets, t) == None
    decreases |slots|
  {
    if slots != [] {
      var init := slots[..|slots| - 1];
      assert slots[|slots| - 1].text in Texts(slots);
      NoSlotNoInput(init, widgets, t);
    }
  }

  lemma {:induction false} LastInputSkipsOthers(pre: seq<Slot>, post: seq<Slot>, widgets: map<string, string>, t: QText)
    requires forall k :: 0 <= k < |post| ==> post[k].text != t
    ensures LastInput(pre + post, widgets, t) == LastInput(pre, widgets, t)
    decreases |post|
  {
    if post == [] {
      assert pre + post == pre;
    } else {
      var n := |pre + post|;
      assert (pre + post)[..n - 1] == pre + post[..|post| - 1];
      assert (pre + post)[n - 1] == post[|post| - 1];
      LastInputSkipsOthers(pre, post[..|post| - 1], widgets, t);
    }
  }

  /** A text repeated in several slots ends with the value typed into the last of them. */
  lemma LastWriteWins(m: AnswerMap, pre: seq<Slot>, s: Slot, post: seq<Slot>, widgets: map<string, string>)
    requires s.Key() in widgets
    requires forall k :: 0 <= k < |post| ==> post[k].text != s.text
    ensures s.text in RecordAll(m, pre + [s] + post, widgets)
    ensures RecordAll(m, pre + [s] + post, widgets)[s.text] == widgets[s.Key()]
  {
    var slots := pre + [s] + post;
    RecordAllKeys(m, slots, widgets);
    assert slots[|pre|] == s;
    RecordAllLookup(m, slots, widgets, s.text);
    LastInputSkipsOthers(pre + [s], post, widgets, s.text);
    assert (pre + [s])[..|pre|] == pre;
  }

  /** With nothing typed into any of its widgets, a render keeps every stored answer. */
  lemma NoInputKeepsAnswers(m: AnswerMap, slots: seq<Slot>, widgets: map<string, string>, t: QText)
    requires forall k :: 0 <= k < |slots| ==> slots[k].Key() !in widgets
    requires t in m
    ensures t in RecordAll(m, slots, widgets) && RecordAll(m, slots, widgets)[t] == m[t]
  {
    RecordAllKeys(m, slots, widgets);
    RecordAllLookup(m, slots, widgets, t);
    NoKeyNoInput(slots, widgets, t);
  }

  lemma {:induction false} NoKeyNoInput(slots: seq<Slot>, widgets: map<string, string>, t: QText)
    requires forall k :: 0 <= k < |slots| ==> slots[k].Key() !in widgets
    ensures LastInput(slots, widgets, t) == None
    decreases |slots|
  {
    if slots != [] {
      NoKeyNoInput(slots[..|slots| - 1], widgets, t);
    }
  }

  /** Re-rendering with the same widget contents changes nothing: recording is idempotent. */
  lemma RerenderIsStable(m: AnswerMap, slots: seq<Slot>, widgets: map<string, string>)
    ensures RecordAll(RecordAll(m, slots, widgets), slots, widgets) == RecordAll(m, slots, widgets)
  {
    var once := RecordAll(m, slots, widgets);
    var twice := RecordAll(once, slots, widgets);
    RecordAllKeys(m, slots, widgets);
    RecordAllKeys(once, slots, widgets);
    forall t | t in twice ensures twice[t] == once[t] {
      RecordAllLookup(m, slots, widgets, t);
      RecordAllLookup(once, slots, widgets, t);
    }
  }

  /** A `ui_qa` call on a fresh session, then a second call with the same widget contents,
      leaves the same answers: what is stored for a question is read back unchanged. */
  method RerenderExample(questions: QuestionSet, widgets: map<string, string>) returns (first: AnswerMap, second: AnswerMap)
    ensures first == second
    ensures first.Keys == Texts(Slots(questions))
  {
    var session := new Session();
    var page;
    first, page := session.UiQa(questions, widgets);
    second, page := session.UiQa(questions, widgets);
    RerenderIsStable(map[], Slots(questions), widgets);
    RecordAllKeys(map[], Slots(questions), widgets);
  }
}
