/** The resume list page: how it reads the list out of the store's
    `resumeInfo`, the search filter, the per-card statistics and the id and
    label fallbacks. Each resume is the plain object the back end returned. */
module ResumeList {
  import Text
  import opened Wrappers
  import opened JsValues

  /** `list` is `whole` with some elements left out, order kept. */
  predicate SubsequenceOf<T(==)>(list: seq<T>, whole: seq<T>)
    decreases |whole|
  {
    list == [] ||
    (whole != [] &&
     ((list[0] == whole[0] && SubsequenceOf(list[1..], whole[1..])) || SubsequenceOf(list, whole[1..])))
  }

  lemma {:induction false} SubsequenceReflexive<T>(s: seq<T>)
    ensures SubsequenceOf(s, s)
    decreases |s|
  {
    if s != [] {
      SubsequenceReflexive(s[1..]);
    }
  }

  lemma {:induction false} SubsequenceLength<T>(list: seq<T>, whole: seq<T>)
    requires SubsequenceOf(list, whole)
    ensures |list| <= |whole|
    decreases |whole|
  {
    if list != [] {
      if list[0] == whole[0] && SubsequenceOf(list[1..], whole[1..]) {
        SubsequenceLength(list[1..], whole[1..]);
      } else {
        SubsequenceLength(list, whole[1..]);
      }
    }
  }

  /** `field?.toLowerCase().includes(term.toLowerCase())` on a field that is
      absent or a string: false when it is absent, and otherwise a
      case-insensitive substring test. */
  predicate FieldMatches(field: Value, term: string)
  {
    match AsString(field)
    case None => false
    case Some(s) => Text.Contains(ToLowerCase(s), ToLowerCase(term))
  }

  /** The same test as evaluated: a present field that is not a string has no
      `toLowerCase`, so calling it throws (None). */
  function FieldOutcome(field: Value, term: string): (r: Option<bool>)
    ensures r.None? <==> !Nullish(field) && !field.Str?
    ensures r.Some? ==> r.value == FieldMatches(field, term)
  {
    if Nullish(field) then Some(false)
    else if field.Str? then Some(Text.Contains(ToLowerCase(field.s), ToLowerCase(term)))
    else None
  }

  /** The search predicate: the term occurs in the title, the name or the email. */
  predicate Matches(resume: Value, term: string)
  {
    FieldMatches(Get(resume, "title"), term) ||
    FieldMatches(Get(resume, "name"), term) ||
    FieldMatches(Get(resume, "email"), term)
  }

  /** Every searched field is absent or a string. */
  predicate SearchFieldsWellTyped(resume: Value)
  {
    (Nullish(Get(resume, "title")) || Get(resume, "title").Str?) &&
    (Nullish(Get(resume, "name")) || Get(resume, "name").Str?) &&
    (Nullish(Get(resume, "email")) || Get(resume, "email").Str?)
  }

  /** The filter callback as evaluated: reading `title` of a `null` or
      `undefined` element throws, and so does a field test on a present
      non-string; `||` stops at the first true test, so the fields after it
      are never read. */
  function MatchOutcome(resume: Value, term: string): (r: Option<bool>)
    ensures r.Some? ==> r.value == Matches(resume, term)
    ensures Nullish(resume) ==> r.None?
    ensures !Nullish(resume) && SearchFieldsWellTyped(resume) ==> r.Some?
    ensures !Nullish(resume) && !SearchFieldsWellTyped(resume) && !Matches(resume, term) ==> r.None?
  {
    if Nullish(resume) then None
    else match FieldOutcome(Get(resume, "title"), term)
      case None => None
      case Some(true) => Some(true)
      case Some(false) =>
        match FieldOutcome(Get(resume, "name"), term)
        case None => None
        case Some(true) => Some(true)
        case Some(false) => FieldOutcome(Get(resume, "email"), term)
  }

  /** `resumes.filter(resume => Matches(resume, term))`. */
  function Filter(resumes: seq<Value>, term: string): (r: seq<Value>)
    ensures forall i :: 0 <= i < |r| ==> Matches(r[i], term)
    ensures forall x :: x in r <==> x in resumes && Matches(x, term)
    ensures SubsequenceOf(r, resumes)
    ensures |r| <= |resumes|
  {
    if resumes == [] then []
    else if Matches(resumes[0], term) then [resumes[0]] + Filter(resumes[1..], term)
    else Filter(resumes[1..], term)
  }

  /** Every matching resume is kept as often as it occurs, and no other one:
      with `SubsequenceOf`, this fixes the filtered list entirely. */
  lemma {:induction false} FilterCounts(resumes: seq<Value>, term: string)
    ensures forall x :: multiset(Filter(resumes, term))[x] == (if Matches(x, term) then multiset(resumes)[x] else 0)
    decreases |resumes|
  {
    if resumes != [] {
      FilterCounts(resumes[1..], term);
      assert resumes == [resumes[0]] + resumes[1..];
      assert multiset(resumes) == multiset([resumes[0]]) + multiset(resumes[1..]);
      if Matches(resumes[0], term) {
        assert Filter(resumes, term) == [resumes[0]] + Filter(resumes[1..], term);
        assert multiset(Filter(resumes, term)) == multiset([resumes[0]]) + multiset(Filter(resumes[1..], term));
      }
    }
  }

  /** `resumes.filter(callback)` as evaluated: the kept resumes, or a throw
      (None) as soon as the callback throws on one element. */
  function FilterOutcome(resumes: seq<Value>, term: string): (r: Option<seq<Value>>)
    ensures r.Some? ==> r.value == Filter(resumes, term)
    decreases |resumes|
  {
    if resumes == [] then Some([])
    else match MatchOutcome(resumes[0], term)
      case None => None
      case Some(keep) =>
        match FilterOutcome(resumes[1..], term)
        case None => None
        case Some(rest) => Some(if keep then [resumes[0]] + rest else rest)
  }

  /** The filter throws exactly when the callback throws on some element. */
  lemma {:induction false} FilterOutcomeThrows(resumes: seq<Value>, term: string)
    ensures FilterOutcome(resumes, term).None? <==>
              exists i :: 0 <= i < |resumes| && MatchOutcome(resumes[i], term).None?
    decreases |resumes|
  {
    if resumes != [] {
      FilterOutcomeThrows(resumes[1..], term);
      if MatchOutcome(resumes[0], term).Some? {
        forall i | 1 <= i < |resumes|
          ensures MatchOutcome(resumes[i], term) == MatchOutcome(resumes[1..][i - 1], term)
        {
        }
        if FilterOutcome(resumes[1..], term).None? {
          var i :| 0 <= i < |resumes[1..]| && MatchOutcome(resumes[1..][i], term).None?;
          assert MatchOutcome(resumes[i + 1], term).None?;
        }
      }
    }
  }

  /** A list of well-typed objects never makes the filter throw. */
  lemma WellTypedListFilters(resumes: seq<Value>, term: string)
    requires forall i :: 0 <= i < |resumes| ==> !Nullish(resumes[i]) && SearchFieldsWellTyped(resumes[i])
    ensures FilterOutcome(resumes, term) == Some(Filter(resumes, term))
  {
    FilterOutcomeThrows(resumes, term);
  }

  /** The resume has at least one of the three searched fields. */
  predicate HasSearchField(resume: Value)
  {
    Get(resume, "title").Str? || Get(resume, "name").Str? || Get(resume, "email").Str?
  }

  /** With an empty search box a resume is listed exactly when it has a title,
      a name or an email. */
  lemma EmptyTermKeepsSearchable(resume: Value)
    ensures Matches(resume, "") <==> HasSearchField(resume)
  {
    forall s: string ensures Text.Contains(s, "") {
      assert Text.OccursAt(s, "", 0);
    }
  }

  /** Upper- and lower-case spellings of the search term select the same resumes. */
  lemma SearchIgnoresTermCase(resume: Value, term: string)
    ensures Matches(resume, term) <==> Matches(resume, ToLowerCase(term))
  {
    Text.AsciiLowerIdempotent(term);
  }

  /** The effect that reacts to a settled fetch: an array `resumeInfo` is the
      list, an object whose `data` is an array gives that array, and anything
      else (or a store without `success`) leaves the list as it was. */
  function ListFromResponse(success: Value, resumeInfo: Value): (r: Option<seq<Value>>)
    ensures !Truthy(success) || !Truthy(resumeInfo) ==> r == None
    ensures Truthy(success) && resumeInfo.Arr? ==> r == Some(resumeInfo.elems)
    ensures Truthy(success) && resumeInfo.Obj? && Get(resumeInfo, "data").Arr? ==>
              r == Some(Get(resumeInfo, "data").elems)
    ensures r.Some? ==> resumeInfo.Arr? || Get(resumeInfo, "data").Arr?
  {
    if Truthy(success) && Truthy(resumeInfo) then
      if resumeInfo.Arr? then Some(resumeInfo.elems)
      else if Truthy(Get(resumeInfo, "data")) && Get(resumeInfo, "data").Arr? then Some(Get(resumeInfo, "data").elems)
      else None
    else None
  }

  /** The six section fields a card counts. */
  const SectionFields := ["professionalsummary", "skills", "workexperience", "projects", "education", "certifications"]

  /** `values.filter(Boolean).length`. */
  function CountTruthy(values: seq<Value>): (n: nat)
    ensures n <= |values|
    ensures n == 0 <==> forall i :: 0 <= i < |values| ==> !Truthy(values[i])
    ensures n == |values| <==> forall i :: 0 <= i < |values| ==> Truthy(values[i])
  {
    if values == [] then 0
    else (if Truthy(values[0]) then 1 else 0) + CountTruthy(values[1..])
  }

  function SectionValues(resume: Value): (r: seq<Value>)
    ensures |r| == |SectionFields|
    ensures forall i :: 0 <= i < |r| ==> r[i] == Get(resume, SectionFields[i])
  {
    seq(|SectionFields|, i requires 0 <= i < |SectionFields| => Get(resume, SectionFields[i]))
  }

  /** The "Sections" statistic of a card: how many of the six section fields
      are filled in. */
  function SectionCount(resume: Value): (n: nat)
    ensures n <= 6
    ensures n == 0 <==> forall i :: 0 <= i < 6 ==> !Truthy(Get(resume, SectionFields[i]))
    ensures n == 6 <==> forall i :: 0 <= i < 6 ==> Truthy(Get(resume, SectionFields[i]))
  {
    CountTruthy(SectionValues(resume))
  }

  /** The "Words" statistic: `resume.resume?.split(' ').length || 0`. A
      present text has one more word than it has spaces, so the empty text
      counts one word; an absent text counts none. Reading the field of a
      `null` element, or calling `split` on a present non-string, throws (None). */
  function WordCount(resume: Value): (n: Option<nat>)
    ensures n.None? <==> Nullish(resume) || (!Nullish(Get(resume, "resume")) && !Get(resume, "resume").Str?)
    ensures !Nullish(resume) && Nullish(Get(resume, "resume")) ==> n == Some(0)
    ensures !Nullish(resume) && Get(resume, "resume").Str? ==>
              n == Some(Text.CountChar(Get(resume, "resume").s, ' ') + 1)
  {
    if Nullish(resume) then None
    else
      var text := Get(resume, "resume");
      if Nullish(text) then Some(0)
      else if text.Str? then
        Text.SplitCount(text.s, ' ');
        Some(|Text.Split(text.s, ' ')|)
      else None
  }

  /** `resume.$id || resume.id`, the id the card's buttons act on. */
  function ActionId(resume: Value): (r: Value)
    ensures Truthy(Get(resume, "$id")) ==> r == Get(resume, "$id")
    ensures !Truthy(Get(resume, "$id")) ==> r == Get(resume, "id")
  {
    Or(Get(resume, "$id"), Get(resume, "id"))
  }

  /** The card heading: the title, or "Resume n" for the n-th card. */
  function CardTitle(resume: Value, index: nat): (r: Value)
    ensures Truthy(r)
    ensures Truthy(Get(resume, "title")) ==> r == Get(resume, "title")
    ensures !Truthy(Get(resume, "title")) ==> r == Str("Resume " + Text.NatToString(index + 1))
  {
    Or(Get(resume, "title"), Str("Resume " + Text.NatToString(index + 1)))
  }

  /** The name line of a card, "Untitled Resume" when the name is missing. */
  function CardName(resume: Value): (r: Value)
    ensures Truthy(r)
    ensures Truthy(Get(resume, "name")) ==> r == Get(resume, "name")
    ensures !Truthy(Get(resume, "name")) ==> r == Str("Untitled Resume")
  {
    Or(Get(resume, "name"), Str("Untitled Resume"))
  }

  /** The page's component state: the fetched list, the search box and the
      list on screen. */
  class ResumeListView {
    var resumes: seq<Value>
    var searchTerm: string
    var filteredResumes: seq<Value>

    /** The list on screen is always drawn from the fetched list, in order;
        so the "n of m resumes" counter never shows n above m. */
    predicate Valid()
      reads this
    {
      SubsequenceOf(filteredResumes, resumes)
    }

    constructor ()
      ensures Valid()
      ensures resumes == [] && searchTerm == "" && filteredResumes == []
    {
      resumes, searchTerm, filteredResumes := [], "", [];
    }

    /** The effect on `success` and `resumeInfo`: a recognised list replaces
        both the fetched and the shown list. */
    method ResponseEffect(success: Value, resumeInfo: Value)
      requires Valid()
      modifies this
      ensures Valid()
      ensures ListFromResponse(success, resumeInfo).None? ==>
                resumes == old(resumes) && filteredResumes == old(filteredResumes)
      ensures ListFromResponse(success, resumeInfo).Some? ==>
                resumes == ListFromResponse(success, resumeInfo).value && filteredResumes == resumes
      ensures searchTerm == old(searchTerm)
    {
      var list := ListFromResponse(success, resumeInfo);
      if list.Some? {
        resumes := list.value;
        filteredResumes := list.value;
        SubsequenceReflexive(resumes);
      }
    }

    /** The effect on `searchTerm` and `resumes`. When the filter throws, the
        effect stops before `setFilteredResumes` and nothing changes. */
    method FilterEffect() returns (threw: bool)
      requires Valid()
      modifies this
      ensures Valid()
      ensures threw <==> exists i :: 0 <= i < |resumes| && MatchOutcome(resumes[i], searchTerm).None?
      ensures !threw ==> filteredResumes == Filter(resumes, searchTerm)
      ensures threw ==> filteredResumes == old(filteredResumes)
      ensures resumes == old(resumes) && searchTerm == old(searchTerm)
    {
      var filtered := FilterOutcome(resumes, searchTerm);
      FilterOutcomeThrows(resumes, searchTerm);
      threw := filtered.None?;
      if !threw {
        filteredResumes := filtered.value;
      }
    }

    method SetSearchTerm(term: string)
      requires Valid()
      modifies this
      ensures Valid()
      ensures searchTerm == term
      ensures resumes == old(resumes) && filteredResumes == old(filteredResumes)
    {
      searchTerm := term;
    }

    /** The counter "n of m resumes". */
    method Counts() returns (shown: nat, total: nat)
      requires Valid()
      ensures shown == |filteredResumes| && total == |resumes|
      ensures shown <= total
    {
      SubsequenceLength(filteredResumes, resumes);
      shown, total := |filteredResumes|, |resumes|;
    }
  }
}
