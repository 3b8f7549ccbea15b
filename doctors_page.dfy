/** The public doctor list: a search box, a specialty selector and the avatar
    initials. */
module DoctorsPage {
  import opened Text
  import opened Types
  import opened Lists
  import Initials

  /** The search term occurs, ignoring ASCII case, in the name or the specialty. */
  predicate MatchesTerm(d: Doctor, term: string)
  {
    Contains(Lower(d.name), Lower(term)) || Contains(Lower(d.specialty), Lower(term))
  }

  /** The selector value "all" accepts every doctor; any other value only an
      exact specialty. */
  predicate InSpecialty(d: Doctor, specialty: string)
  {
    specialty == "all" || d.specialty == specialty
  }

  /** Whether a doctor is listed: an empty term applies no text filter. */
  predicate Listed(d: Doctor, term: string, specialty: string)
  {
    (term == "" || MatchesTerm(d, term)) && InSpecialty(d, specialty)
  }

  function TermTest(term: string): Doctor -> bool
  {
    (d: Doctor) => MatchesTerm(d, term)
  }

  function SpecialtyTest(specialty: string): Doctor -> bool
  {
    (d: Doctor) => d.specialty == specialty
  }

  function ListedTest(term: string, specialty: string): Doctor -> bool
  {
    (d: Doctor) => Listed(d, term, specialty)
  }

  /** `filteredDoctors`: the text filter when a term is typed, then the specialty
      filter unless "all" is selected. */
  function FilteredDoctors(doctors: seq<Doctor>, term: string, specialty: string): (r: seq<Doctor>)
    ensures forall d :: d in r <==> d in doctors && Listed(d, term, specialty)
  {
    var byTerm := if term != "" then Filter(doctors, TermTest(term)) else doctors;
    if specialty != "all" then Filter(byTerm, SpecialtyTest(specialty)) else byTerm
  }

  /** The list shown is the doctors that pass both tests, in their original
      order: one filter, and an order-preserving sublist of the doctors. */
  lemma FilteredIsSublist(doctors: seq<Doctor>, term: string, specialty: string)
    ensures FilteredDoctors(doctors, term, specialty) == Filter(doctors, ListedTest(term, specialty))
    ensures Subsequence(FilteredDoctors(doctors, term, specialty), doctors)
  {
    var text := TermTest(term);
    var spec := SpecialtyTest(specialty);
    var listed := ListedTest(term, specialty);
    if term != "" && specialty != "all" {
      FilterFilter(doctors, text, spec);
      FilterCongruent(doctors, Both(text, spec), listed);
    } else if term != "" {
      FilterCongruent(doctors, text, listed);
    } else if specialty != "all" {
      FilterCongruent(doctors, spec, listed);
    } else {
      FilterAll(doctors, listed);
    }
    FilterSubsequence(doctors, listed);
  }

  /** The specialty of each doctor, in list order. */
  function SpecialtyColumn(doctors: seq<Doctor>): (r: seq<string>)
    ensures |r| == |doctors| && forall i :: 0 <= i < |doctors| ==> r[i] == doctors[i].specialty
  {
    seq(|doctors|, i requires 0 <= i < |doctors| => doctors[i].specialty)
  }

  /** `specialties`: the distinct specialties of the doctors. */
  function Specialties(doctors: seq<Doctor>): (r: seq<string>)
    ensures forall x :: x in r <==> x in SpecialtyColumn(doctors)
    ensures forall i, j :: 0 <= i < j < |r| ==> r[i] != r[j]
  {
    Dedup(SpecialtyColumn(doctors))
  }

  /** Each specialty is listed once, in the order in which it first occurs among
      the doctors. */
  lemma SpecialtiesInFirstOccurrenceOrder(doctors: seq<Doctor>)
    ensures var col := SpecialtyColumn(doctors); var r := Specialties(doctors);
      forall i, j :: 0 <= i < j < |r| ==> FirstIndex(col, r[i]) < FirstIndex(col, r[j])
  {
    DedupFirstOccurrence(SpecialtyColumn(doctors));
  }

  /** `getInitials` of the doctor cards: the common initials with "D" for an empty
      name. */
  function DoctorInitials(name: string): (r: string)
    ensures r == Initials.Initials(name, "D")
    ensures name == "" ==> r == "D"
    ensures |r| <= 2 || r == "D"
  {
    Initials.Initials(name, "D")
  }
}
