/**
  The musician search of src/app/dashboard/page.js: a fixed list of
  musicians filtered, in order, by a case-insensitive substring match over
  name, skill and the decimal form of the price.
 */
module Dashboard {
  import opened Text

  datatype Musician = Musician(name: string, skill: string, price: nat)

  const Musicians: seq<Musician> := [
    Musician("John Doe", "Guitar", 100),
    Musician("Jane Smith", "Piano", 150),
    Musician("Mike Johnson", "Drums", 120)
  ]

  /** The page state: the stored search text and the list on display. */
  datatype View = View(search: string, filtered: seq<Musician>)

  /** The state before any input: every musician is listed, as an empty search would show. */
  function InitialView(): (v: View)
    ensures v == HandleSearch("")
  {
    EmptyQueryKeepsAll(Musicians);
    View("", Musicians)
  }

  /**
    The filter predicate for an already lower-cased query: the query occurs
    in the name, the skill or the price. The empty query matches everyone,
    and a match means the query fits inside one of the three fields.
   */
  function Matches(m: Musician, query: string): (found: bool)
    ensures query == "" ==> found
    ensures found ==> |query| <= |m.name| || |query| <= |m.skill| || |query| <= |NatToDecimal(m.price)|
  {
    var name, skill, price := Lower(m.name), Lower(m.skill), NatToDecimal(m.price);
    ContainsEmpty(name);
    if Contains(name, query) then ContainsShorter(name, query); true
    else if Contains(skill, query) then ContainsShorter(skill, query); true
    else if Contains(price, query) then ContainsShorter(price, query); true
    else false
  }

  /** `r` keeps some elements of `s`, in their order. */
  predicate SubsequenceOf<T(==)>(r: seq<T>, s: seq<T>) {
    if r == [] then true
    else if s == [] then false
    else if r[0] == s[0] then SubsequenceOf(r[1..], s[1..])
    else SubsequenceOf(r, s[1..])
  }

  /** `list.filter(m => Matches(m, query))`. */
  function Filter(list: seq<Musician>, query: string): (r: seq<Musician>)
    ensures SubsequenceOf(r, list)
    ensures forall m :: m in r ==> m in list && Matches(m, query)
    ensures forall m :: m in list && Matches(m, query) ==> m in r
    // every copy of a matching musician is kept, and no other
    ensures forall m :: multiset(r)[m] == if Matches(m, query) then multiset(list)[m] else 0
  {
    if list == [] then []
    else
      var rest := Filter(list[1..], query);
      assert list == [list[0]] + list[1..];
      if Matches(list[0], query) then [list[0]] + rest else rest
  }

  /** `handleSearch`: lower-case the input, store it, filter the full list by it. */
  function HandleSearch(input: string): (v: View)
    ensures v.search == Lower(input)
    ensures SubsequenceOf(v.filtered, Musicians)
    ensures forall m :: m in v.filtered <==> m in Musicians && Matches(m, Lower(input))
  {
    var value := Lower(input);
    View(value, Filter(Musicians, value))
  }

  /** Every musician matches the empty query. */
  lemma {:induction false} EmptyQueryKeepsAll(list: seq<Musician>)
    ensures Filter(list, "") == list
  {
    if list != [] {
      ContainsEmpty(Lower(list[0].name));
      EmptyQueryKeepsAll(list[1..]);
    }
  }

  /**
    The search is case-insensitive: the input and its lower-cased form give
    the same view, and the view depends on the input alone, never on an
    earlier search.
   */
  lemma CaseInsensitive(input: string)
    ensures HandleSearch(Lower(input)) == HandleSearch(input)
  {
    LowerIdempotent(input);
  }

  /** Filtering any list by a slice of a member's lower-cased name keeps that member. */
  lemma FilterKeepsNameSlice(list: seq<Musician>, m: Musician, i: nat, j: nat)
    requires m in list && i <= j <= |m.name|
    ensures m in Filter(list, Lower(m.name)[i..j])
  {
    ContainsSlice(Lower(m.name), i, j);
  }

  /** A musician is found by any slice of its lower-cased name. */
  lemma FoundByName(m: Musician, i: nat, j: nat)
    requires m in Musicians && i <= j <= |m.name|
    ensures m in HandleSearch(Lower(m.name)[i..j]).filtered
  {
    LowerOfLowerSlice(m.name, i, j);
    FilterKeepsNameSlice(Musicians, m, i, j);
  }
}
