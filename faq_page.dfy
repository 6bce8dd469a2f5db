/** The FAQ page: categories of questions that expand one at a time, one
    open question inside the open category, a search that narrows the
    questions of every category and drops the categories left empty, and
    the colour classes of the category icons. */
module FaqPage {
  import opened Common

  datatype Question = Question(id: string, question: string, answer: string)

  datatype FaqCategory = FaqCategory(id: string, title: string, color: string, questions: seq<Question>)

  // ---------------------------------------------------------------------
  // Expanding and collapsing

  /** `current === id ? null : id`. */
  function Toggled(current: Option<string>, id: string): (r: Option<string>)
    ensures r.Some? <==> current != Some(id)
    ensures r.Some? ==> r.value == id
  {
    if current == Some(id) then None else Some(id)
  }

  /** Toggling the same id twice restores the state exactly when nothing or
      that very id was open before; with another id open it ends closed. */
  lemma ToggleTwice(current: Option<string>, id: string)
    ensures Toggled(Toggled(current, id), id) == current <==> current.None? || current == Some(id)
    ensures current.Some? && current != Some(id) ==> Toggled(Toggled(current, id), id).None?
  {
  }

  /** The state the handlers change. */
  class FaqState {
    var searchTerm: string
    var expandedCategory: Option<string>
    var expandedQuestion: Option<string>

    constructor ()
      ensures searchTerm == "" && expandedCategory.None? && expandedQuestion.None?
    {
      searchTerm := "";
      expandedCategory := None;
      expandedQuestion := None;
    }

    /** `toggleCategory`: opens the category, or closes it when it is open,
        and always closes the open question. */
    method ToggleCategory(categoryId: string)
      modifies this`expandedCategory, this`expandedQuestion
      ensures expandedCategory == Toggled(old(expandedCategory), categoryId)
      ensures expandedQuestion.None?
    {
      expandedCategory := Toggled(expandedCategory, categoryId);
      expandedQuestion := None;
    }

    /** `toggleQuestion`: opens the question, or closes it when it is open. */
    method ToggleQuestion(questionId: string)
      modifies this`expandedQuestion
      ensures expandedQuestion == Toggled(old(expandedQuestion), questionId)
    {
      expandedQuestion := Toggled(expandedQuestion, questionId);
    }

    method SetSearchTerm(term: string)
      modifies this`searchTerm
      ensures searchTerm == term
    {
      searchTerm := term;
    }
  }

  // ---------------------------------------------------------------------
  // filteredCategories

  /** The question or its answer contains the search term, ignoring case. */
  predicate Matches(q: Question, term: string)
  {
    IncludesIgnoreCase(q.question, term) || IncludesIgnoreCase(q.answer, term)
  }

  function MatchesTerm(term: string): Question -> bool
  {
    (q: Question) => Matches(q, term)
  }

  /** A category with only its matching questions. */
  function Narrowed(c: FaqCategory, term: string): FaqCategory
  {
    c.(questions := Filter(c.questions, MatchesTerm(term)))
  }

  function HasQuestions(c: FaqCategory): bool { |c.questions| > 0 }

  /** `categories.map(narrow)`. */
  function NarrowAll(categories: seq<FaqCategory>, term: string): (r: seq<FaqCategory>)
    ensures |r| == |categories|
    ensures forall i :: 0 <= i < |categories| ==> r[i] == Narrowed(categories[i], term)
  {
    if categories == [] then [] else [Narrowed(categories[0], term)] + NarrowAll(categories[1..], term)
  }

  /** `filteredCategories`: every category narrowed to its matching
      questions, then the empty ones dropped. */
  function FilteredCategories(categories: seq<FaqCategory>, term: string): (r: seq<FaqCategory>)
    ensures forall c :: c in r ==> |c.questions| > 0 && forall q :: q in c.questions ==> Matches(q, term)
    ensures forall c :: c in r <==> exists c0 :: c0 in categories && c == Narrowed(c0, term) && HasQuestions(c)
    ensures IsSubseq(r, NarrowAll(categories, term))
  {
    var narrowed := NarrowAll(categories, term);
    FilterIsSubseq(narrowed, HasQuestions);
    Filter(narrowed, HasQuestions)
  }

  /** An empty search keeps every category that has questions, each with all
      its questions, in order. */
  lemma EmptySearchKeepsEverything(categories: seq<FaqCategory>)
    requires forall c :: c in categories ==> |c.questions| > 0
    ensures FilteredCategories(categories, "") == categories
  {
    forall c | c in categories ensures Narrowed(c, "") == c {
      forall q | q in c.questions ensures Matches(q, "") {
        IncludesEmpty(q.question);
      }
      FilterKeepsAll(c.questions, MatchesTerm(""));
    }
    var narrowed := NarrowAll(categories, "");
    assert narrowed == categories;
    FilterKeepsAll(narrowed, HasQuestions);
  }

  /** A search never adds a question to a category: the questions shown
      are, in order, some of the category's own. */
  lemma NarrowingKeepsOrder(c: FaqCategory, term: string)
    ensures IsSubseq(Narrowed(c, term).questions, c.questions)
    ensures Narrowed(c, term).id == c.id && Narrowed(c, term).title == c.title && Narrowed(c, term).color == c.color
  {
    FilterIsSubseq(c.questions, MatchesTerm(term));
  }

  // ---------------------------------------------------------------------
  // getColorClass

  const ColorClasses: map<string, string> := map[
    "blue" := "text-blue-600 bg-blue-100",
    "green" := "text-green-600 bg-green-100",
    "yellow" := "text-yellow-600 bg-yellow-100",
    "orange" := "text-orange-600 bg-orange-100",
    "purple" := "text-purple-600 bg-purple-100",
    "red" := "text-red-600 bg-red-100"
  ]

  const GrayClass: string := "text-gray-600 bg-gray-100"

  /** `colorClasses[color] || gray`. */
  function GetColorClass(color: string): (r: string)
    ensures color !in ColorClasses ==> r == GrayClass
    ensures color in ColorClasses ==> r == ColorClasses[color]
  {
    if color in ColorClasses && ColorClasses[color] != "" then ColorClasses[color] else GrayClass
  }

  /** The gray classes are used exactly for a colour outside the table. */
  lemma GrayExactlyForUnknownColors(color: string)
    ensures GetColorClass(color) == GrayClass <==> color !in ColorClasses
  {
    forall c | c in ColorClasses ensures ColorClasses[c][8] != 'y' {
    }
    assert GrayClass[8] == 'y';
  }
}
