/** The reference catalog: a case-insensitive whole-string lookup by species
    key over the `birds` collection, and the listing of the collection. The
    collection is a sequence in the store's natural order. */
module BirdsCatalog {
  import opened Wrappers
  import opened Strings
  import opened Dto

  datatype Bird = Bird(
    species: string,
    commonName: string,
    scientificName: string,
    image: string,
    size: string,
    weight: string,
    colors: string,
    habitat: string)

  /** Characters that would change the meaning of the `^key$` pattern. */
  const RegexMetacharacters: string := "\\^$.|?*+()[]{}"

  /** A key the pattern `^key$` (flag `i`) matches literally: ASCII, with no
      regular-expression metacharacter. */
  predicate PlainKey(key: string)
  {
    forall i :: 0 <= i < |key| ==> key[i] < 128 as char && key[i] !in RegexMetacharacters
  }

  predicate Matches(bird: Bird, key: string)
  {
    EqualsIgnoreCase(bird.species, key)
  }

  /** The position of the first record whose species matches the key. */
  function FirstMatch(birds: seq<Bird>, key: string): (i: Option<nat>)
    ensures i.Some? ==> i.value < |birds| && Matches(birds[i.value], key)
    ensures i.Some? ==> forall j :: 0 <= j < i.value ==> !Matches(birds[j], key)
    ensures i.None? ==> forall j :: 0 <= j < |birds| ==> !Matches(birds[j], key)
  {
    if |birds| == 0 then None
    else if Matches(birds[0], key) then Some(0)
    else
      match FirstMatch(birds[1..], key)
      case None => None
      case Some(k) => Some(k + 1)
  }

  function NotFoundMessage(key: string): string
  {
    "Bird species \"" + key + "\" not found in database"
  }

  /** `findBySpecies(species)`: the first record whose species equals the key
      up to letter case, or NotFound when there is none. */
  function FindBySpecies(birds: seq<Bird>, key: string): (r: Result<Bird, Exception>)
    requires PlainKey(key)
    ensures r.Success? <==> exists j :: 0 <= j < |birds| && Matches(birds[j], key)
    ensures r.Success? ==> r.value in birds && EqualsIgnoreCase(r.value.species, key)
    ensures r.Success? ==> exists j :: 0 <= j < |birds| && birds[j] == r.value &&
                                       forall k :: 0 <= k < j ==> !Matches(birds[k], key)
    ensures r.Failure? ==> r.error == NotFoundException(NotFoundMessage(key))
  {
    match FirstMatch(birds, key)
    case Some(i) => Success(birds[i])
    case None => Failure(NotFoundException(NotFoundMessage(key)))
  }

  /** `findAll()` */
  function FindAll(birds: seq<Bird>): (all: seq<Bird>)
    ensures |all| == |birds| && forall i :: 0 <= i < |all| ==> all[i] == birds[i]
  {
    birds
  }

  /** Matching depends on the key only through its case-folded form. */
  lemma {:induction false} FirstMatchIgnoresCase(birds: seq<Bird>, k1: string, k2: string)
    requires EqualsIgnoreCase(k1, k2)
    ensures FirstMatch(birds, k1) == FirstMatch(birds, k2)
  {
    if |birds| > 0 {
      FirstMatchIgnoresCase(birds[1..], k1, k2);
    }
  }

  /** Two keys that differ only in letter case find the same record, or both
      find nothing; looking up the same key twice gives the same record. */
  lemma LookupIgnoresCase(birds: seq<Bird>, k1: string, k2: string)
    requires PlainKey(k1) && PlainKey(k2) && EqualsIgnoreCase(k1, k2)
    ensures FindBySpecies(birds, k1).Success? <==> FindBySpecies(birds, k2).Success?
    ensures FindBySpecies(birds, k1).Success? ==> FindBySpecies(birds, k1).value == FindBySpecies(birds, k2).value
  {
    FirstMatchIgnoresCase(birds, k1, k2);
  }

  /** Whatever a lookup finds is one of the listed records. */
  lemma FoundRecordIsListed(birds: seq<Bird>, key: string)
    requires PlainKey(key)
    ensures FindBySpecies(birds, key).Success? ==> FindBySpecies(birds, key).value in FindAll(birds)
  {
  }
}
