/** The advice catalogue and its two queries: advice for a mood, and a
    random pick. */
module AdviceData {
  import opened Lists

  datatype AdviceItem = AdviceItem(
    id: string,
    title: string,
    tags: seq<string>,
    moodRelated: Option<seq<string>>)
  const Title1 := "3 Steps to Overcome Stage Fright"
  const Tags1 := ["confidence", "public speaking", "anxiety"]
  const Title2 := "Building Daily Confidence Habits"
  const Tags2 := ["habits", "confidence", "daily practice"]
  const Title3 := "Finding Calm in Stressful Moments"
  const Tags3 := ["stress", "anxiety", "calm"]
  const Title4 := "The Science of Happy Habits"
  const Tags4 := ["happiness", "habits", "positivity"]
  const Title5 := "Recharging Your Energy When Tired"
  const Tags5 := ["energy", "self-care", "rest"]
  const Title6 := "Building Meaningful Connections"
  const Tags6 := ["relationships", "connection", "social"]

  const Catalogue: seq<AdviceItem> := [
      AdviceItem("advice-1", Title1, Tags1, Some(["down", "confident"])),
      AdviceItem("advice-2", Title2, Tags2, Some(["okay", "down"])),
      AdviceItem("advice-3", Title3, Tags3, Some(["down", "tired"])),
      AdviceItem("advice-4", Title4, Tags4, Some(["happy", "loved"])),
      AdviceItem("advice-5", Title5, Tags5, Some(["tired", "okay"])),
      AdviceItem("advice-6", Title6, Tags6, Some(["loved", "happy"]))
    ]

  function AdviceId(item: AdviceItem): string { item.id }

  /** `item.moodRelated?.includes(mood)`: an item without a mood list
      relates to no mood. */
  predicate RelatesTo(item: AdviceItem, mood: string) {
    item.moodRelated.Some? && mood in item.moodRelated.value
  }

  /** `items.filter(item => item.moodRelated?.includes(mood))`: the items
      that list `mood`, in their order. */
  function MoodMatches(items: seq<AdviceItem>, mood: string): (r: seq<AdviceItem>)
    ensures |r| <= |items|
    ensures forall x :: x in r <==> x in items && RelatesTo(x, mood)
  {
    if items == [] then []
    else if RelatesTo(items[0], mood) then [items[0]] + MoodMatches(items[1..], mood)
    else MoodMatches(items[1..], mood)
  }

  /** The filter keeps catalogue order. */
  lemma {:induction false} MoodMatchesIsSubsequence(items: seq<AdviceItem>, mood: string)
    ensures IsSubsequence(MoodMatches(items, mood), items)
  {
    if items != [] {
      MoodMatchesIsSubsequence(items[1..], mood);
      var r := MoodMatches(items, mood);
      if RelatesTo(items[0], mood) {
        assert r[0] == items[0] && r[1..] == MoodMatches(items[1..], mood);
      } else {
        SubsequenceOfTail(r, items);
      }
    }
  }

  /** The catalogue filtered to the items that list `mood`. */
  function ForMood(mood: string): (r: seq<AdviceItem>)
    ensures forall x :: x in r <==> x in Catalogue && RelatesTo(x, mood)
  {
    MoodMatches(Catalogue, mood)
  }

  /** `getAdviceForMood`: an empty mood gives the first three items; any
      other mood gives the first (at most) three items that list it. */
  function GetAdviceForMood(mood: string): (r: seq<AdviceItem>)
    ensures |r| <= 3
    ensures mood == "" ==> r == Catalogue[..3]
    ensures mood != "" ==> forall x :: x in r ==> x in Catalogue && RelatesTo(x, mood)
    ensures mood != "" ==> |r| == Min(3, |ForMood(mood)|) && r == ForMood(mood)[..|r|]
  {
    if mood == "" then Take(Catalogue, 3)
    else Take(ForMood(mood), 3)
  }

  /** The result keeps catalogue order, and when fewer than four items
      list the mood it holds every one of them. */
  lemma AdviceForMoodOrder(mood: string)
    ensures IsSubsequence(GetAdviceForMood(mood), Catalogue)
    ensures mood != "" && |ForMood(mood)| <= 3 ==>
              forall x :: x in Catalogue && RelatesTo(x, mood) ==> x in GetAdviceForMood(mood)
  {
    var r := GetAdviceForMood(mood);
    if mood == "" {
      PrefixIsSubsequence(Catalogue, 3);
    } else {
      MoodMatchesIsSubsequence(Catalogue, mood);
      PrefixIsSubsequence(ForMood(mood), |r|);
      SubsequenceTransitive(r, ForMood(mood), Catalogue);
    }
  }

  /** The last two items, for a tired user. */
  lemma TiredFromFour()
    ensures MoodMatches(Catalogue[4..], "tired") == [Catalogue[4]]
  {
    var c := Catalogue;
    assert c[5..][1..] == [];
    assert MoodMatches(c[5..], "tired") == [];
    assert c[4..][1..] == c[5..];
  }

  /** The last four items, for a tired user. */
  lemma TiredFromTwo()
    ensures MoodMatches(Catalogue[2..], "tired") == [Catalogue[2], Catalogue[4]]
  {
    var c := Catalogue;
    TiredFromFour();
    assert c[3..][1..] == c[4..];
    assert MoodMatches(c[3..], "tired") == [c[4]];
    assert c[2..][1..] == c[3..];
  }

  /** The last five items, for a tired user. */
  lemma TiredFromOne()
    ensures MoodMatches(Catalogue[1..], "tired") == [Catalogue[2], Catalogue[4]]
  {
    TiredFromTwo();
    assert Catalogue[1..][1..] == Catalogue[2..];
  }

  /** All six items, for a tired user. */
  lemma TiredFromZero()
    ensures ForMood("tired") == [Catalogue[2], Catalogue[4]]
  {
    TiredFromOne();
    assert Catalogue[0..] == Catalogue;
  }

  /** A tired user is offered the calm and the energy advice, in that
      order. */
  lemma TiredAdvice()
    ensures Keys(GetAdviceForMood("tired"), AdviceId) == ["advice-3", "advice-5"]
  {
    TiredFromZero();
    var r := GetAdviceForMood("tired");
    assert r == [Catalogue[2], Catalogue[4]];
  }

  /** No two catalogue items share an id. */
  lemma CatalogueIdsDistinct()
    ensures |Catalogue| == 6 && NoDuplicates(Keys(Catalogue, AdviceId)) && NoDuplicates(Catalogue)
  {
    var ids := Keys(Catalogue, AdviceId);
    assert ids == ["advice-1", "advice-2", "advice-3", "advice-4", "advice-5", "advice-6"];
    assert NoDuplicates(Catalogue) by {
      forall i, j | 0 <= i < j < |Catalogue| ensures Catalogue[i] != Catalogue[j] {
        assert ids[i] != ids[j];
      }
    }
  }

  /** The default `count` of `getRandomAdvice`. */
  const DefaultAdviceCount := 3

  /** `getRandomAdvice(count)`, with `shuffled` the order the random sort
      produced (any reordering of the catalogue): `min(count, 6)` different
      catalogue items for a non-negative count. */
  function GetRandomAdvice(count: int, shuffled: seq<AdviceItem>): (r: seq<AdviceItem>)
    requires multiset(shuffled) == multiset(Catalogue)
    ensures 0 <= count ==> |r| == Min(count, |Catalogue|)
    ensures forall x :: x in r ==> x in Catalogue
    ensures NoDuplicates(r)
  {
    CatalogueIdsDistinct();
    PermutationKeepsNoDuplicates(Catalogue, shuffled);
    assert |shuffled| == |multiset(shuffled)| == |Catalogue|;
    forall x | x in shuffled ensures x in Catalogue {
      assert x in multiset(shuffled);
    }
    Take(shuffled, count)
  }

  /** Called without a count, `getRandomAdvice` gives three different
      catalogue items, whatever order the random sort chose. */
  lemma DefaultRandomAdviceIsThree(shuffled: seq<AdviceItem>)
    requires multiset(shuffled) == multiset(Catalogue)
    ensures var r := GetRandomAdvice(DefaultAdviceCount, shuffled);
            |r| == 3 && NoDuplicates(r) && forall x :: x in r ==> x in Catalogue
  {
  }
}
