/** The card-lookup cache of the deck-list block (src/blocks/decklist-block/cardData.ts).

    `CardDB.getCard` answers from its map when the name is a key; otherwise it
    asks the card service. A card that is found is cached; a 404 is cached as
    `CardNotFound`; any other error answers `CardNotFound` without caching, so
    a later call asks again. The service is not modelled: its answer is the
    `FetchOutcome` argument, consulted only on a miss.
 */
module CardData {

  /** What a lookup answers: a card (opaque here) or the not-found marker. */
  datatype MaybeCard<C> = Known(card: C) | CardNotFound

  /** What the card service would answer for the requested name. `NotFound404` is a
      rejection whose `originalError.status` is loosely equal to 404; every other
      rejection is `OtherError`. */
  datatype FetchOutcome<C> = Found(card: C) | NotFound404 | OtherError

  /** One `getCard` call: the answer, the map afterwards, and whether the service was asked. */
  datatype Step<C> = Step(answer: MaybeCard<C>, cards: map<string, MaybeCard<C>>, fetched: bool)

  /** One request to the cache: the exact name and what the service would answer. */
  datatype Request<C> = Request(name: string, outcome: FetchOutcome<C>)

  /** The caching policy of one `getCard` call. */
  function CacheStep<C>(cards: map<string, MaybeCard<C>>, name: string, outcome: FetchOutcome<C>): (r: Step<C>)
    // the service is asked exactly on a miss
    ensures r.fetched <==> name !in cards
    // a hit answers the stored value and changes nothing
    ensures name in cards ==> r.answer == cards[name] && r.cards == cards
    // a miss answers what the service said, a 404 and any other error as CardNotFound
    ensures name !in cards ==> r.answer == (if outcome.Found? then Known(outcome.card) else CardNotFound)
    // a miss caches the answer unless the error may be transient
    ensures name !in cards ==> (name in r.cards <==> !outcome.OtherError?)
    // what is cached for the name is what was answered
    ensures name in r.cards ==> r.cards[name] == r.answer
    // no other key is added, removed or changed
    ensures forall k :: k != name ==> (k in r.cards <==> k in cards)
    ensures forall k :: k in cards ==> k in r.cards && r.cards[k] == cards[k]
  {
    if name in cards then
      Step(cards[name], cards, false)
    else
      match outcome
      case Found(card) => Step(Known(card), cards[name := Known(card)], true)
      case NotFound404 => Step(CardNotFound, cards[name := CardNotFound], true)
      case OtherError => Step(CardNotFound, cards, true)
  }

  /** The map after a sequence of `getCard` calls, one after the other. */
  function Replay<C>(cards: map<string, MaybeCard<C>>, requests: seq<Request<C>>): (m: map<string, MaybeCard<C>>)
    decreases |requests|
  {
    if requests == [] then cards
    else Replay(CacheStep(cards, requests[0].name, requests[0].outcome).cards, requests[1..])
  }

  /** The answer of the call `requests[i]`, made after the calls before it. */
  function AnswerAt<C>(cards: map<string, MaybeCard<C>>, requests: seq<Request<C>>, i: nat): (r: Step<C>)
    requires i < |requests|
  {
    CacheStep(Replay(cards, requests[..i]), requests[i].name, requests[i].outcome)
  }

  /** The map only grows: every cached entry survives any later calls unchanged. */
  lemma {:induction false} ReplayKeepsEntries<C>(cards: map<string, MaybeCard<C>>, requests: seq<Request<C>>)
    ensures forall k :: k in cards ==> k in Replay(cards, requests) && Replay(cards, requests)[k] == cards[k]
    decreases |requests|
  {
    if requests != [] {
      var next := CacheStep(cards, requests[0].name, requests[0].outcome).cards;
      ReplayKeepsEntries(next, requests[1..]);
    }
  }

  /** Only requested names become keys. */
  lemma {:induction false} ReplayKeysRequested<C>(cards: map<string, MaybeCard<C>>, requests: seq<Request<C>>, k: string)
    requires k in Replay(cards, requests)
    ensures k in cards || exists i :: 0 <= i < |requests| && requests[i].name == k
    decreases |requests|
  {
    if requests != [] {
      var next := CacheStep(cards, requests[0].name, requests[0].outcome).cards;
      ReplayKeysRequested(next, requests[1..], k);
      if k !in cards && k != requests[0].name {
        var i :| 0 <= i < |requests[1..]| && requests[1..][i].name == k;
        assert requests[i + 1].name == k;
      }
    }
  }

  /** Calls for other names leave the entry for `k`, or its absence, as it was. */
  lemma {:induction false} ReplayOtherNames<C>(cards: map<string, MaybeCard<C>>, requests: seq<Request<C>>, k: string)
    requires forall i :: 0 <= i < |requests| ==> requests[i].name != k
    ensures k in Replay(cards, requests) <==> k in cards
    decreases |requests|
  {
    if requests != [] {
      var next := CacheStep(cards, requests[0].name, requests[0].outcome).cards;
      assert requests[0].name != k;
      ReplayOtherNames(next, requests[1..], k);
    }
  }

  /** Replaying two runs of calls is replaying their concatenation. */
  lemma {:induction false} ReplayAppend<C>(cards: map<string, MaybeCard<C>>, a: seq<Request<C>>, b: seq<Request<C>>)
    ensures Replay(cards, a + b) == Replay(Replay(cards, a), b)
    decreases |a|
  {
    if a != [] {
      var next := CacheStep(cards, a[0].name, a[0].outcome).cards;
      assert (a + b)[1..] == a[1..] + b;
      ReplayAppend(next, a[1..], b);
    } else {
      assert a + b == b;
    }
  }

  /** A call that did not end in a transient error (a hit, a found card, or a 404)
      leaves the name cached: every later call for it is answered from the
      cache, with the same value. */
  lemma CachedAnswerIsPermanent<C>(cards: map<string, MaybeCard<C>>, requests: seq<Request<C>>, i: nat, j: nat)
    requires i < j < |requests| && requests[i].name == requests[j].name
    requires !(AnswerAt(cards, requests, i).fetched && requests[i].outcome.OtherError?)
    ensures !AnswerAt(cards, requests, j).fetched
    ensures AnswerAt(cards, requests, j).answer == AnswerAt(cards, requests, i).answer
  {
    var name := requests[i].name;
    var before := Replay(cards, requests[..i]);
    var after := CacheStep(before, name, requests[i].outcome).cards;
    assert requests[..i + 1] == requests[..i] + [requests[i]];
    ReplayAppend(cards, requests[..i], [requests[i]]);
    assert Replay(cards, requests[..i + 1]) == after;
    assert requests[..j] == requests[..i + 1] + requests[i + 1..j];
    ReplayAppend(cards, requests[..i + 1], requests[i + 1..j]);
    ReplayKeepsEntries(after, requests[i + 1..j]);
  }

  /** An error other than a 404 is not remembered: if nothing else asked for
      the name meanwhile, the next call for it asks the service again. */
  lemma TransientErrorIsRetried<C>(cards: map<string, MaybeCard<C>>, requests: seq<Request<C>>, i: nat, j: nat)
    requires i < j < |requests| && requests[i].name == requests[j].name
    requires requests[i].outcome.OtherError? && AnswerAt(cards, requests, i).fetched
    requires forall k :: i < k < j ==> requests[k].name != requests[i].name
    ensures AnswerAt(cards, requests, j).fetched
  {
    var name := requests[i].name;
    var after := CacheStep(Replay(cards, requests[..i]), name, requests[i].outcome).cards;
    assert requests[..i + 1] == requests[..i] + [requests[i]];
    ReplayAppend(cards, requests[..i], [requests[i]]);
    assert requests[..j] == requests[..i + 1] + requests[i + 1..j];
    ReplayAppend(cards, requests[..i + 1], requests[i + 1..j]);
    ReplayOtherNames(after, requests[i + 1..j], name);
  }

  /** Keys are exact strings: caching "Bolt" says nothing about "bolt". */
  lemma KeysAreCaseSensitive<C>(card: C)
    ensures var r := CacheStep(map[], "Bolt", Found(card));
      "Bolt" in r.cards && "bolt" !in r.cards && CacheStep(r.cards, "bolt", OtherError).fetched
  {
  }

  /** The lookup cache: a map from exact card name to the last answer worth keeping. */
  class CardDB<C> {
    var cards: map<string, MaybeCard<C>>
    /** The names sent to the card service so far, oldest first. */
    ghost var requested: seq<string>

    /** Every cached name was once sent to the card service. */
    ghost predicate Valid()
      reads this
    {
      forall k :: k in cards ==> k in requested
    }

    constructor ()
      ensures Valid()
      ensures cards == map[] && requested == []
    {
      cards := map[];
      requested := [];
    }

    /** Answers the card for `cardname`; on a miss the service answers `outcome`. */
    method GetCard(cardname: string, outcome: FetchOutcome<C>) returns (r: MaybeCard<C>)
      requires Valid()
      modifies this
      ensures Valid()
      ensures r == CacheStep(old(cards), cardname, outcome).answer
      ensures cards == CacheStep(old(cards), cardname, outcome).cards
      ensures requested == old(requested) + (if CacheStep(old(cards), cardname, outcome).fetched then [cardname] else [])
    {
      if cardname in cards {
        r := cards[cardname];
        return;
      }
      requested := requested + [cardname];
      match outcome {
        case Found(card) =>
          cards := cards[cardname := Known(card)];
          r := Known(card);
        case NotFound404 =>
          cards := cards[cardname := CardNotFound];
          r := cards[cardname];
        case OtherError =>
          r := CardNotFound;
      }
    }
  }
}
