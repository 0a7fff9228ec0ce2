/**
 * The ban list page (ban_numbers.js): the stored list `nextEarnXBanNumbers`
 * is read into the page's `bannedNumbers` array, numbers typed into the
 * form are appended when absent, a listed number can be removed, and
 * every save writes a list without repetitions.
 */
module BanList {
  import opened Common
  import opened Store

  /** `.filter(n => typeof n === 'string')` */
  function Strings(items: seq<Item>): (r: seq<string>)
    ensures Items(r) == Filter(items, (i: Item) => i.Str?)
    ensures forall t :: t in r <==> Str(t) in items
  {
    if items == [] then []
    else if items[0].Str? then [items[0].text] + Strings(items[1..])
    else Strings(items[1..])
  }

  /** `JSON.stringify` of a list of strings. */
  function Items(xs: seq<string>): (r: seq<Item>)
    ensures |r| == |xs|
    ensures forall k :: 0 <= k < |xs| ==> r[k] == Str(xs[k])
  {
    if xs == [] then [] else [Str(xs[0])] + Items(xs[1..])
  }

  /** What is written is what is read back (before deduplication). */
  lemma {:induction false} StringsOfItems(xs: seq<string>)
    ensures Strings(Items(xs)) == xs
  {
    if xs != [] {
      assert Items(xs)[1..] == Items(xs[1..]);
      StringsOfItems(xs[1..]);
    }
  }

  /** `loadBannedNumbers`: the string entries, first occurrences only. */
  function LoadBans(items: seq<Item>): seq<string>
  {
    Dedup(Strings(items))
  }

  /** The loaded list has no repetitions and holds exactly the stored strings. */
  lemma LoadBansProps(items: seq<Item>)
    ensures NoDup(LoadBans(items))
    ensures forall t :: t in LoadBans(items) <==> Str(t) in items
  {
    DedupProps(Strings(items));
  }

  /** Saving a list without repetitions and loading it again gives the same list. */
  lemma SaveLoadRoundTrip(xs: seq<string>)
    requires NoDup(xs)
    ensures LoadBans(Items(Dedup(xs))) == xs
  {
    DedupOfNoDup(xs, []);
    assert [] + xs == xs;
    StringsOfItems(xs);
  }

  /**
   * The form's numbers: the trimmed input split on `[,. \s\n]+`, keeping
   * the ten-character numeric-looking pieces, in order.
   */
  function ValidNumbers(input: string): (r: seq<string>)
    ensures r == Filter(Tokens(Trim(input), false), n => MobileLike(n))
    ensures forall n :: n in r <==> n in Tokens(Trim(input), false) && MobileLike(n)
  {
    MobilePieces(Tokens(Trim(input), false))
  }

  function MobilePieces(pieces: seq<string>): (r: seq<string>)
    ensures r == Filter(pieces, n => MobileLike(n))
    ensures forall n :: n in r <==> n in pieces && MobileLike(n)
  {
    if pieces == [] then []
    else if MobileLike(pieces[0]) then [pieces[0]] + MobilePieces(pieces[1..])
    else MobilePieces(pieces[1..])
  }

  datatype AddOutcome = Ignored | NoValidNumbers | Added(count: nat)

  /** The page, holding its copy `bannedNumbers` of the stored list. */
  class BanPage {
    var banned: seq<string>

    /** The page's copy never repeats a number. */
    ghost predicate Valid()
      reads this
    {
      NoDup(banned)
    }

    /** `renderBanList` on page load. */
    constructor (st: Store)
      ensures Valid()
      ensures banned == LoadBans(st.bans)
    {
      banned := LoadBans(st.bans);
      LoadBansProps(st.bans);
    }

    /** `loadBannedNumbers` */
    method Load(st: Store)
      modifies this`banned
      ensures Valid()
      ensures banned == LoadBans(st.bans)
    {
      banned := LoadBans(st.bans);
      LoadBansProps(st.bans);
    }

    /** `saveBannedNumbers`: always writes the list without repetitions. */
    method Save(st: Store)
      modifies st`bans
      ensures st.bans == Items(Dedup(banned))
      ensures NoDup(Strings(st.bans))
    {
      st.bans := Items(Dedup(banned));
      StringsOfItems(Dedup(banned));
      DedupProps(banned);
    }

    /**
     * The add form. A blank input, or one without a valid number, changes
     * nothing. Otherwise each valid number is appended when absent, the
     * count says how many were, and the saved and reloaded list is that
     * result.
     */
    method AddNumbers(st: Store, input: string) returns (r: AddOutcome)
      requires Valid()
      modifies this`banned, st`bans
      ensures Valid()
      ensures r == Ignored <==> Trim(input) == []
      ensures r == NoValidNumbers <==> Trim(input) != [] && ValidNumbers(input) == []
      ensures !r.Added? ==> unchanged(st) && unchanged(this)
      ensures r.Added? ==>
        banned == AddMissing(old(banned), ValidNumbers(input)) &&
        r.count == |banned| - |old(banned)| &&
        st.bans == Items(banned)
    {
      if Trim(input) == [] {
        return Ignored;
      }
      var numbers := ValidNumbers(input);
      if numbers == [] {
        return NoValidNumbers;
      }
      var added := AppendAll(st, numbers);
      r := Added(added);
    }

    /** The loop of the add form: each number not yet banned is appended, then the list is saved and reloaded. */
    method AppendAll(st: Store, numbers: seq<string>) returns (added: nat)
      requires Valid()
      modifies this`banned, st`bans
      ensures Valid()
      ensures banned == AddMissing(old(banned), numbers)
      ensures added == |banned| - |old(banned)|
      ensures st.bans == Items(banned)
    {
      added := 0;
      var i := 0;
      while i < |numbers|
        invariant 0 <= i <= |numbers|
        invariant AddMissing(banned, numbers[i..]) == AddMissing(old(banned), numbers)
        invariant NoDup(banned)
        invariant |banned| == |old(banned)| + added
      {
        assert numbers[i..][0] == numbers[i] && numbers[i..][1..] == numbers[i + 1..];
        if numbers[i] !in banned {
          forall p, q | 0 <= p < q < |banned + [numbers[i]]|
            ensures (banned + [numbers[i]])[p] != (banned + [numbers[i]])[q]
          {
            assert (banned + [numbers[i]])[p] == banned[p];
          }
          banned := banned + [numbers[i]];
          added := added + 1;
        }
        i := i + 1;
      }
      assert numbers[i..] == [];
      var result := banned;
      Save(st);
      Load(st);
      SaveLoadRoundTrip(result);
      DedupOfNoDup(result, []);
      assert [] + result == result;
    }

    /** A confirmed removal deletes that number and keeps the others in order. */
    method Remove(st: Store, number: string, confirmed: bool)
      requires Valid()
      modifies this`banned, st`bans
      ensures Valid()
      ensures !confirmed ==> unchanged(st) && unchanged(this)
      ensures confirmed ==> banned == RemoveAll(old(banned), number) && st.bans == Items(banned)
    {
      if !confirmed {
        return;
      }
      var result := RemoveAll(banned, number);
      RemoveAllNoDup(banned, number);
      banned := result;
      Save(st);
      Load(st);
      SaveLoadRoundTrip(result);
      DedupOfNoDup(result, []);
      assert [] + result == result;
    }
  }

  /** Banning the same batch again leaves the list as it is. */
  lemma AddAgainChangesNothing(banned: seq<string>, input: string)
    ensures AddMissing(AddMissing(banned, ValidNumbers(input)), ValidNumbers(input)) ==
            AddMissing(banned, ValidNumbers(input))
  {
    AddMissingIdempotent(banned, ValidNumbers(input));
  }

  /** Adding keeps the list free of repetitions, keeps the old entries first and holds exactly old and new numbers. */
  lemma AddKeepsListSetLike(banned: seq<string>, input: string)
    requires NoDup(banned)
    ensures var r := AddMissing(banned, ValidNumbers(input));
      NoDup(r) && |banned| <= |r| && r[..|banned|] == banned &&
      forall n :: n in r <==> n in banned || (n in Tokens(Trim(input), false) && MobileLike(n))
  {
    AddMissingProps(banned, ValidNumbers(input));
  }

  /** Numbers that are all banned already add nothing. */
  lemma AddPresentChangesNothing(banned: seq<string>, input: string)
    requires forall n :: n in ValidNumbers(input) ==> n in banned
    ensures AddMissing(banned, ValidNumbers(input)) == banned
  {
    AddMissingPresent(banned, ValidNumbers(input));
  }

  /** Removal deletes exactly that number and keeps the relative order of the rest. */
  lemma RemoveDeletesOnlyThat(before: seq<string>, number: string, after: seq<string>)
    ensures RemoveAll(before + [number] + after, number) == RemoveAll(before, number) + RemoveAll(after, number)
    ensures number !in before + after ==> RemoveAll(before + [number] + after, number) == before + after
  {
    RemoveAllOfConcat(before + [number], after, number);
    RemoveAllOfConcat(before, [number], number);
    assert [number][1..] == [];
    assert RemoveAll([number], number) == [];
    assert RemoveAll(before, number) + [] == RemoveAll(before, number);
    if number !in before + after {
      assert number !in before && number !in after;
      RemoveAllAbsent(before, number);
      RemoveAllAbsent(after, number);
    }
  }
}
