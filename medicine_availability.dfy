/**
 * The medicine availability screen: the case-insensitive search over the
 * pharmacy list (by pharmacy name or by the name of any medicine it stocks),
 * the three-medicine display slice, the price / out-of-stock label and the
 * empty-result message.
 */
module MedicineAvailability {
  import opened Prelude
  import LC = LanguageContext

  datatype Medicine = Medicine(name: string, available: bool, price: string)

  datatype Pharmacy = Pharmacy(
    id: string,
    name: string,
    address: string,
    phone: string,
    distance: string,
    medicines: seq<Medicine>,
    lastUpdated: string,
    open: bool)

  /** `toLowerCase` on one character, restricted to the ASCII letters. */
  function LowerChar(c: char): char {
    if 'A' <= c <= 'Z' then (c as int + 32) as char else c
  }

  /**
   * `toLowerCase`: each ASCII capital becomes the small letter at the same
   * place in the alphabet, every other character is kept, and no capital is left.
   */
  function ToLower(s: string): (r: string)
    ensures |r| == |s|
    ensures forall i :: 0 <= i < |s| ==>
      if 'A' <= s[i] <= 'Z' then 'a' <= r[i] <= 'z' && r[i] as int - 'a' as int == s[i] as int - 'A' as int
      else r[i] == s[i]
    ensures forall i :: 0 <= i < |r| ==> !('A' <= r[i] <= 'Z')
  {
    seq(|s|, i requires 0 <= i < |s| => LowerChar(s[i]))
  }

  /** Two strings that differ at most in the case of ASCII letters. */
  predicate SameUpToCase(a: string, b: string) {
    |a| == |b| && forall i :: 0 <= i < |a| ==> LowerChar(a[i]) == LowerChar(b[i])
  }

  /** Lower-casing twice is lower-casing once. */
  lemma ToLowerIdempotent(s: string)
    ensures ToLower(ToLower(s)) == ToLower(s)
  {
  }

  /** `needle` occurs in `hay` starting at position `i`. */
  predicate OccursAt(hay: string, needle: string, i: int) {
    0 <= i && i + |needle| <= |hay| && hay[i..i + |needle|] == needle
  }

  /** `hay.includes(needle)`: a left-to-right scan for an occurrence. */
  function Includes(hay: string, needle: string): (r: bool)
    ensures r <==> exists i :: OccursAt(hay, needle, i)
    decreases |hay|
  {
    if |needle| > |hay| then false
    else if hay[..|needle|] == needle then
      assert OccursAt(hay, needle, 0);
      true
    else
      var r := Includes(hay[1..], needle);
      assert hay[0..|needle|] == hay[..|needle|];
      ShiftOccurrence(hay, needle);
      assert forall j :: OccursAt(hay[1..], needle, j) ==> OccursAt(hay, needle, j + 1);
      r
  }

  /** An occurrence at a non-zero position in `hay` is an occurrence in its tail, and back. */
  lemma ShiftOccurrence(hay: string, needle: string)
    requires |hay| > 0
    ensures forall i :: 1 <= i ==> (OccursAt(hay, needle, i) <==> OccursAt(hay[1..], needle, i - 1))
  {
  }

  /** `name.toLowerCase().includes(searchTerm.toLowerCase())`. */
  predicate NameMatches(name: string, term: string) {
    Includes(ToLower(name), ToLower(term))
  }

  /**
   * The filter's test: the pharmacy's name or some medicine's name contains
   * the term. The empty term is contained in every name.
   */
  predicate Matches(p: Pharmacy, term: string)
    ensures term == "" ==> Matches(p, term)
  {
    assert OccursAt(ToLower(p.name), ToLower(""), 0);
    NameMatches(p.name, term) || exists i :: 0 <= i < |p.medicines| && NameMatches(p.medicines[i].name, term)
  }

  /**
   * `filteredPharmacies`: exactly the pharmacies that match, each as often
   * as in the input, in their original order.
   */
  function FilterPharmacies(ps: seq<Pharmacy>, term: string): (r: seq<Pharmacy>)
    ensures forall p :: p in r <==> p in ps && Matches(p, term)
    ensures forall p :: multiset(r)[p] == if Matches(p, term) then multiset(ps)[p] else 0
    ensures SubsequenceOf(r, ps)
  {
    if ps == [] then []
    else
      var rest := FilterPharmacies(ps[1..], term);
      assert ps == [ps[0]] + ps[1..];
      if Matches(ps[0], term) then
        assert ([ps[0]] + rest)[1..] == rest;
        [ps[0]] + rest
      else rest
  }

  /** An empty search term matches every pharmacy, so the full list is shown. */
  lemma {:induction false} EmptyTermKeepsAll(ps: seq<Pharmacy>)
    ensures FilterPharmacies(ps, "") == ps
  {
    if ps != [] {
      assert OccursAt(ToLower(ps[0].name), ToLower(""), 0);
      EmptyTermKeepsAll(ps[1..]);
      assert ps == [ps[0]] + ps[1..];
    }
  }

  /** The search ignores letter case: the term and its lower-cased form select the same list. */
  lemma {:induction false} SearchIgnoresCase(ps: seq<Pharmacy>, term: string)
    ensures FilterPharmacies(ps, ToLower(term)) == FilterPharmacies(ps, term)
  {
    ToLowerIdempotent(term);
    if ps != [] {
      SearchIgnoresCase(ps[1..], term);
    }
  }

  /** Names that differ only in letter case contain the same search terms. */
  lemma NameCaseIgnored(a: string, b: string, term: string)
    requires SameUpToCase(a, b)
    ensures NameMatches(a, term) <==> NameMatches(b, term)
  {
    assert ToLower(a) == ToLower(b);
  }

  /** Two pharmacies with the same pharmacy and medicine names, whatever their stock. */
  predicate SameNames(p: Pharmacy, q: Pharmacy) {
    && p.name == q.name
    && |p.medicines| == |q.medicines|
    && forall i :: 0 <= i < |p.medicines| ==> p.medicines[i].name == q.medicines[i].name
  }

  /** Availability plays no part in matching: an out-of-stock medicine still finds its pharmacy. */
  lemma MatchIgnoresAvailability(p: Pharmacy, q: Pharmacy, term: string)
    requires SameNames(p, q)
    ensures Matches(p, term) <==> Matches(q, term)
  {
  }

  /** `pharmacy.medicines.slice(0, 3)`: the first three medicines, or all if fewer. */
  function DisplayedMedicines(p: Pharmacy): (r: seq<Medicine>)
    ensures |r| <= 3 && |r| <= |p.medicines| && r == p.medicines[..|r|]
    ensures |r| == 3 || r == p.medicines
  {
    if |p.medicines| <= 3 then p.medicines else p.medicines[..3]
  }

  /**
   * Matching reads every medicine, not just the displayed ones: a pharmacy in
   * the list is kept when only its fourth or later medicine matches, though
   * that medicine's row is not shown.
   */
  lemma HiddenMedicineStillMatches(ps: seq<Pharmacy>, p: Pharmacy, term: string, i: int)
    requires p in ps
    requires 3 <= i < |p.medicines| && NameMatches(p.medicines[i].name, term)
    ensures p in FilterPharmacies(ps, term)
    ensures |DisplayedMedicines(p)| == 3 && i >= |DisplayedMedicines(p)|
  {
  }

  /** The right-hand label of a medicine row: its price when in stock, the out-of-stock text otherwise. */
  function StockLabel(m: Medicine, lang: LC.Language): (r: string)
    ensures m.available ==> r == m.price
    ensures !m.available ==> r == LC.Pick(LC.Catalogue(LC.OutOfStock), lang) && r != ""
  {
    if m.available then m.price else LC.GetTranslation(LC.OutOfStock, lang)
  }

  /** The "no results" message is shown exactly when no pharmacy matches the search. */
  predicate EmptyStateShown(ps: seq<Pharmacy>, term: string)
    ensures EmptyStateShown(ps, term) <==> forall p :: p in ps ==> !Matches(p, term)
  {
    var r := FilterPharmacies(ps, term);
    assert r != [] ==> r[0] in r;
    |r| == 0
  }
}
