/** The FAQ page's search: each category keeps the questions whose question
    or answer contains the query, ignoring case, and categories left empty
    are dropped. */
module Faq {
  import opened JsText

  datatype Question = Question(question: string, answer: string)

  datatype Category = Category(title: string, questions: seq<Question>)

  /** The test applied to every question. */
  predicate Matches(q: Question, query: string) {
    Contains(ToLower(q.question), ToLower(query)) || Contains(ToLower(q.answer), ToLower(query))
  }

  /** `a` is `b` with some elements removed, the rest in their order. */
  predicate IsSubsequence<T(==)>(a: seq<T>, b: seq<T>)
    decreases |b|
  {
    if a == [] then true
    else if b == [] then false
    else if a[0] == b[0] then IsSubsequence(a[1..], b[1..])
    else IsSubsequence(a, b[1..])
  }

  /** `category.questions.filter(...)` */
  function FilterQuestions(qs: seq<Question>, query: string): (r: seq<Question>)
    ensures |r| <= |qs|
    ensures forall q :: q in r <==> q in qs && Matches(q, query)
  {
    if qs == [] then []
    else (if Matches(qs[0], query) then [qs[0]] else []) + FilterQuestions(qs[1..], query)
  }

  /** `filteredCategories`: every category with its questions filtered, the
      categories whose filtered list is empty left out. */
  function FilteredCategories(cats: seq<Category>, query: string): (r: seq<Category>)
    ensures |r| <= |cats|
    ensures forall i :: 0 <= i < |r| ==> r[i].questions != []
  {
    if cats == [] then []
    else
      var c := Filtered(cats[0], query);
      (if c.questions != [] then [c] else []) + FilteredCategories(cats[1..], query)
  }

  /** `{ ...category, questions: category.questions.filter(...) }` */
  function Filtered(d: Category, query: string): (c: Category)
    ensures c.title == d.title
  {
    d.(questions := FilterQuestions(d.questions, query))
  }

  /** A category is shown exactly when it is the filtered form of an input
      category that still has a question. */
  lemma {:induction false} ShownCategories(cats: seq<Category>, query: string)
    ensures forall c :: c in FilteredCategories(cats, query) <==>
      exists d :: d in cats && c == Filtered(d, query) && c.questions != []
  {
    if cats != [] {
      ShownCategories(cats[1..], query);
      assert forall d :: d in cats <==> d == cats[0] || d in cats[1..];
    }
  }

  /** Every question shown, in every category shown, matches the query. */
  lemma ShownQuestionsMatch(cats: seq<Category>, query: string)
    ensures forall c, q :: c in FilteredCategories(cats, query) && q in c.questions ==> Matches(q, query)
  {
    ShownCategories(cats, query);
  }

  /** A category shows a question exactly when the question is in the
      category and matches: nothing that matches is dropped. */
  lemma MatchingQuestionShown(cats: seq<Category>, query: string, d: Category, q: Question)
    requires d in cats && q in d.questions && Matches(q, query)
    ensures exists c :: c in FilteredCategories(cats, query) && c.title == d.title && q in c.questions
  {
    var c := Filtered(d, query);
    assert q in c.questions;
    ShownCategories(cats, query);
  }

  lemma {:induction false} FilterQuestionsOrder(qs: seq<Question>, query: string)
    ensures IsSubsequence(FilterQuestions(qs, query), qs)
  {
    if qs != [] {
      FilterQuestionsOrder(qs[1..], query);
      if !Matches(qs[0], query) {
        assert FilterQuestions(qs, query) == FilterQuestions(qs[1..], query);
        SubsequenceOfTail(FilterQuestions(qs[1..], query), qs);
      } else {
        assert FilterQuestions(qs, query)[1..] == FilterQuestions(qs[1..], query);
      }
    }
  }

  /** A subsequence of the tail is a subsequence of the whole. */
  lemma {:induction false} SubsequenceOfTail<T>(a: seq<T>, b: seq<T>)
    requires b != [] && IsSubsequence(a, b[1..])
    ensures IsSubsequence(a, b)
    decreases |b|, 0
  {
    if a != [] && a[0] == b[0] {
      SubsequenceTail(a, b[1..]);
    }
  }

  /** A subsequence stays one when its own first element is dropped. */
  lemma {:induction false} SubsequenceTail<T>(a: seq<T>, b: seq<T>)
    requires a != [] && IsSubsequence(a, b)
    ensures IsSubsequence(a[1..], b)
    decreases |b|, 1
  {
    if a[0] != b[0] {
      SubsequenceTail(a, b[1..]);
    }
    SubsequenceOfTail(a[1..], b);
  }

  /** Question order within a category, and category order, are kept. */
  lemma {:induction false} FilteredCategoriesOrder(cats: seq<Category>, query: string)
    ensures IsSubsequence(Titles(FilteredCategories(cats, query)), Titles(cats))
  {
    if cats != [] {
      FilteredCategoriesOrder(cats[1..], query);
      var c := Filtered(cats[0], query);
      var rest := FilteredCategories(cats[1..], query);
      assert Titles(cats)[1..] == Titles(cats[1..]);
      if c.questions != [] {
        assert FilteredCategories(cats, query) == [c] + rest;
        assert Titles([c] + rest)[1..] == Titles(rest);
      } else {
        assert FilteredCategories(cats, query) == rest;
        SubsequenceOfTail(Titles(rest), Titles(cats));
      }
    }
  }

  function Titles(cats: seq<Category>): (ts: seq<string>)
    ensures |ts| == |cats|
  {
    if cats == [] then [] else [cats[0].title] + Titles(cats[1..])
  }

  /** The empty query matches every question. */
  lemma {:induction false} EmptyQueryKeepsQuestions(qs: seq<Question>)
    ensures FilterQuestions(qs, "") == qs
  {
    if qs != [] {
      ContainsEmpty(ToLower(qs[0].question));
      assert ToLower("") == "";
      EmptyQueryKeepsQuestions(qs[1..]);
    }
  }

  /** With the empty query every category with questions is shown as it is. */
  lemma {:induction false} EmptyQueryKeepsCategories(cats: seq<Category>)
    requires forall i :: 0 <= i < |cats| ==> cats[i].questions != []
    ensures FilteredCategories(cats, "") == cats
  {
    if cats != [] {
      EmptyQueryKeepsQuestions(cats[0].questions);
      EmptyQueryKeepsCategories(cats[1..]);
    }
  }

  /** The search ignores the case of the query. */
  lemma {:induction false} QueryCaseIgnored(cats: seq<Category>, query: string)
    ensures FilteredCategories(cats, ToUpper(query)) == FilteredCategories(cats, query)
  {
    LowerOfUpper(query);
    if cats != [] {
      QuestionsCaseIgnored(cats[0].questions, query);
      QueryCaseIgnored(cats[1..], query);
    }
  }

  lemma {:induction false} QuestionsCaseIgnored(qs: seq<Question>, query: string)
    ensures FilterQuestions(qs, ToUpper(query)) == FilterQuestions(qs, query)
  {
    LowerOfUpper(query);
    if qs != [] {
      QuestionsCaseIgnored(qs[1..], query);
    }
  }
}
