/** Recommendation of hot live rooms (class HeatRecommendation): the
    selection of the first `top` lives whose streamer matches no ban
    pattern, the ban test itself, the platform -> follow-dog table built
    from the module settings, and the bounded queue of hot events with its
    shutdown sentinel. Regular-expression search is a parameter. */
module HeatRecommendation {
  import opened Wrappers

  datatype Live = Live(platform: string, liveId: string, liver: string)

  /** A follow-dog setting: which lives to look at, whom to skip, how many to take. */
  datatype FollowDog = FollowDog(moduleName: string, banLiver: seq<string>, top: int)

  /** One module's hot-list settings, as read from the configuration file. */
  datatype HotModuleSetting = HotModuleSetting(platform: string, followDogEnable: bool, followDogs: seq<FollowDog>)

  /** `finds(pattern, text)` stands for Pattern.compile(pattern).matcher(text).find(). */
  type Finder = (string, string) -> bool

  /** Capacity of the ArrayBlockingQueue of hot events. */
  const EventCapacity: nat := 1024

  /** The sentinel string that tells the consumer to stop. */
  const ShutdownSign: string := "shutdown"

  // ---------------------------------------------------------------------
  // isBan

  /** Some ban pattern is found in `liver`. */
  predicate Banned(liver: string, banLivers: seq<string>, finds: Finder)
  {
    exists i :: 0 <= i < |banLivers| && finds(banLivers[i], liver)
  }

  /** isBan: tries the patterns in order and stops at the first that is found. */
  method IsBan(liver: string, banLivers: seq<string>, finds: Finder) returns (b: bool)
    ensures b <==> Banned(liver, banLivers, finds)
    ensures banLivers == [] ==> !b
  {
    for i := 0 to |banLivers|
      invariant forall k :: 0 <= k < i ==> !finds(banLivers[k], liver)
    {
      if finds(banLivers[i], liver) {
        return true;
      }
    }
    return false;
  }

  // ---------------------------------------------------------------------
  // needRecommend

  /** The lives whose streamer is not banned, in input order. */
  function Unbanned(lives: seq<Live>, banLivers: seq<string>, finds: Finder): (r: seq<Live>)
    ensures |r| <= |lives|
    ensures forall k :: 0 <= k < |r| ==> !Banned(r[k].liver, banLivers, finds)
    ensures forall k :: 0 <= k < |lives| && !Banned(lives[k].liver, banLivers, finds) ==> lives[k] in r
    decreases |lives|
  {
    if lives == [] then []
    else
      (if Banned(lives[0].liver, banLivers, finds) then [] else [lives[0]])
      + Unbanned(lives[1..], banLivers, finds)
  }

  /** What needRecommend returns: for top >= 1 the first top unbanned lives
      (all of them if there are fewer); for top <= 0 the loop still looks at
      the first live before its bound check stops it. */
  function Recommendation(lives: seq<Live>, banLivers: seq<string>, top: int, finds: Finder): (rec: seq<Live>)
  {
    if top <= 0 then
      (if lives == [] || Banned(lives[0].liver, banLivers, finds) then [] else [lives[0]])
    else
      var allowed := Unbanned(lives, banLivers, finds);
      allowed[..Min(top, |allowed|)]
  }

  /** `a` can be obtained from `b` by deleting elements. */
  predicate SubsequenceOf<T(==)>(a: seq<T>, b: seq<T>)
    decreases |b|
  {
    a == [] || (b != [] && ((a[0] == b[0] && SubsequenceOf(a[1..], b[1..])) || SubsequenceOf(a, b[1..])))
  }

  lemma {:induction false} UnbannedAppend(a: seq<Live>, b: seq<Live>, banLivers: seq<string>, finds: Finder)
    ensures Unbanned(a + b, banLivers, finds) == Unbanned(a, banLivers, finds) + Unbanned(b, banLivers, finds)
    decreases |a|
  {
    if a != [] {
      assert (a + b)[0] == a[0];
      assert (a + b)[1..] == a[1..] + b;
      UnbannedAppend(a[1..], b, banLivers, finds);
    } else {
      assert a + b == b;
    }
  }

  /** The filter keeps every unbanned live as often as it occurs and drops
      every banned one. */
  lemma {:induction false} UnbannedCounts(lives: seq<Live>, banLivers: seq<string>, finds: Finder)
    ensures forall x ::
              multiset(Unbanned(lives, banLivers, finds))[x]
              == if Banned(x.liver, banLivers, finds) then 0 else multiset(lives)[x]
    decreases |lives|
  {
    if lives != [] {
      UnbannedCounts(lives[1..], banLivers, finds);
      assert lives == [lives[0]] + lives[1..];
      assert multiset(lives) == multiset([lives[0]]) + multiset(lives[1..]);
    }
  }

  /** Filtering one more live extends the filtered prefix by at most that live. */
  lemma UnbannedSnoc(lives: seq<Live>, i: nat, banLivers: seq<string>, finds: Finder)
    requires i < |lives|
    ensures Unbanned(lives[..i + 1], banLivers, finds)
      == Unbanned(lives[..i], banLivers, finds)
         + (if Banned(lives[i].liver, banLivers, finds) then [] else [lives[i]])
  {
    assert lives[..i + 1] == lives[..i] + [lives[i]];
    UnbannedAppend(lives[..i], [lives[i]], banLivers, finds);
  }

  /** The filter keeps the input order: its result is a subsequence. */
  lemma {:induction false} UnbannedIsSubsequence(lives: seq<Live>, banLivers: seq<string>, finds: Finder)
    ensures SubsequenceOf(Unbanned(lives, banLivers, finds), lives)
    decreases |lives|
  {
    if lives != [] {
      var rest := Unbanned(lives[1..], banLivers, finds);
      UnbannedIsSubsequence(lives[1..], banLivers, finds);
      if !Banned(lives[0].liver, banLivers, finds) {
        assert Unbanned(lives, banLivers, finds) == [lives[0]] + rest;
        assert ([lives[0]] + rest)[1..] == rest;
      } else {
        assert Unbanned(lives, banLivers, finds) == rest;
      }
    }
  }

  lemma {:induction false} PrefixOfSubsequence<T>(a: seq<T>, b: seq<T>, k: nat)
    requires SubsequenceOf(a, b) && k <= |a|
    ensures SubsequenceOf(a[..k], b)
    decreases |b|
  {
    if k > 0 && a != [] {
      assert b != [];
      if a[0] == b[0] && SubsequenceOf(a[1..], b[1..]) {
        PrefixOfSubsequence(a[1..], b[1..], k - 1);
        assert a[..k][1..] == a[1..][..k - 1];
      } else {
        PrefixOfSubsequence(a, b[1..], k);
      }
    }
  }

  /** The promises of needRecommend: the result is a subsequence of the
      input, holds no banned live, and for top >= 1 is the prefix of the
      unbanned lives of length min(top, #unbanned); for top <= 0 it is at
      most the first live, and holds it exactly when it is not banned. */
  lemma RecommendationProperties(lives: seq<Live>, banLivers: seq<string>, top: int, finds: Finder)
    ensures var rec := Recommendation(lives, banLivers, top, finds);
      && SubsequenceOf(rec, lives)
      && (forall k :: 0 <= k < |rec| ==> !Banned(rec[k].liver, banLivers, finds))
      && (top >= 1 ==>
            var allowed := Unbanned(lives, banLivers, finds);
            |rec| == Min(top, |allowed|) && rec == allowed[..|rec|])
      && (top <= 0 ==>
            |rec| <= 1 && (rec != [] <==> lives != [] && !Banned(lives[0].liver, banLivers, finds))
            && (rec != [] ==> rec[0] == lives[0]))
  {
    var allowed := Unbanned(lives, banLivers, finds);
    UnbannedIsSubsequence(lives, banLivers, finds);
    if top >= 1 {
      PrefixOfSubsequence(allowed, lives, Min(top, |allowed|));
    } else if lives != [] && !Banned(lives[0].liver, banLivers, finds) {
      assert SubsequenceOf([lives[0]][1..], lives[1..]);
    }
  }

  /** When the loop stops early for top >= 1 it has collected exactly top
      unbanned lives from a prefix, which are the first top of them all. */
  lemma EarlyStopIsRecommendation(lives: seq<Live>, i: nat, banLivers: seq<string>, top: int, finds: Finder)
    requires 0 < i <= |lives| && top >= 1
    requires |Unbanned(lives[..i], banLivers, finds)| == top
    ensures Unbanned(lives[..i], banLivers, finds) == Recommendation(lives, banLivers, top, finds)
  {
    assert lives == lives[..i] + lives[i..];
    UnbannedAppend(lives[..i], lives[i..], banLivers, finds);
  }

  /** needRecommend: walks the lives, keeps the unbanned ones and stops once
      `num` reaches `top`; the check follows the first element, so for
      top <= 0 exactly one live is looked at. */
  method NeedRecommend(lives: seq<Live>, banLivers: seq<string>, top: int, finds: Finder)
    returns (recommendLive: seq<Live>)
    ensures recommendLive == Recommendation(lives, banLivers, top, finds)
  {
    recommendLive := [];
    var num := 0;
    var i := 0;
    while i < |lives|
      invariant 0 <= i <= |lives|
      invariant recommendLive == Unbanned(lives[..i], banLivers, finds)
      invariant num == |recommendLive|
      invariant 0 < i ==> num < top
    {
      var liver := lives[i].liver;
      var banned := IsBan(liver, banLivers, finds);
      if !banned {
        recommendLive := recommendLive + [lives[i]];
        num := num + 1;
      }
      UnbannedSnoc(lives, i, banLivers, finds);
      i := i + 1;
      if num >= top {
        if top >= 1 {
          EarlyStopIsRecommendation(lives, i, banLivers, top, finds);
        } else {
          assert lives[..1] == [lives[0]];
        }
        return;
      }
    }
    assert lives[..i] == lives;
  }

  // ---------------------------------------------------------------------
  // The follow-dog table built by init

  /** Module `m` turns the follow dog on for platform `p`. */
  predicate Enables(m: HotModuleSetting, p: string)
  {
    m.followDogEnable && m.platform == p
  }

  /** The table after init's loop: each enabled module, in order, puts its
      platform's follow-dog list; a later put replaces an earlier one. */
  function FollowDogMap(modules: seq<HotModuleSetting>): (table: map<string, seq<FollowDog>>)
    decreases |modules|
  {
    if modules == [] then map[]
    else
      var table := FollowDogMap(modules[..|modules| - 1]);
      var last := modules[|modules| - 1];
      if last.followDogEnable then table[last.platform := last.followDogs] else table
  }

  /** A platform is in the table exactly when some module enables it, and
      it is mapped to the list of the last module that does. */
  lemma {:induction false} FollowDogMapContents(modules: seq<HotModuleSetting>, p: string)
    ensures p in FollowDogMap(modules) <==> exists i :: 0 <= i < |modules| && Enables(modules[i], p)
    ensures p in FollowDogMap(modules) ==>
      exists i :: 0 <= i < |modules| && Enables(modules[i], p)
        && FollowDogMap(modules)[p] == modules[i].followDogs
        && forall j :: i < j < |modules| ==> !Enables(modules[j], p)
    decreases |modules|
  {
    if modules != [] {
      var n := |modules| - 1;
      var init := modules[..n];
      FollowDogMapContents(init, p);
      assert forall i :: 0 <= i < n ==> init[i] == modules[i];
      if Enables(modules[n], p) {
        assert FollowDogMap(modules)[p] == modules[n].followDogs;
      } else {
        assert (p in FollowDogMap(modules)) == (p in FollowDogMap(init));
        if p in FollowDogMap(init) {
          assert FollowDogMap(modules)[p] == FollowDogMap(init)[p];
          var i :| 0 <= i < n && Enables(init[i], p)
            && FollowDogMap(init)[p] == init[i].followDogs
            && forall j :: i < j < n ==> !Enables(init[j], p);
          assert forall j :: i < j < |modules| ==> !Enables(modules[j], p) by {
            forall j | i < j < |modules| ensures !Enables(modules[j], p) {
              if j < n { assert init[j] == modules[j]; }
            }
          }
        } else {
          assert forall i :: 0 <= i < |modules| ==> !Enables(modules[i], p) by {
            forall i | 0 <= i < |modules| ensures !Enables(modules[i], p) {
              if i < n { assert init[i] == modules[i]; }
            }
          }
        }
      }
    }
  }

  // ---------------------------------------------------------------------
  // The hot-event queue

  /** ArrayBlockingQueue.offer: appends when there is room, drops otherwise. */
  function Offer(queue: seq<string>, x: string): (r: seq<string>)
    requires |queue| <= EventCapacity
    ensures |r| <= EventCapacity
    ensures |queue| < EventCapacity ==> r == queue + [x]
    ensures |queue| == EventCapacity ==> r == queue
  {
    if |queue| < EventCapacity then queue + [x] else queue
  }

  /** The queue after offering every element of `xs`, in order. */
  function OfferAll(queue: seq<string>, xs: seq<string>): (r: seq<string>)
    requires |queue| <= EventCapacity
    ensures |r| <= EventCapacity
    decreases |xs|
  {
    if xs == [] then queue else OfferAll(Offer(queue, xs[0]), xs[1..])
  }

  /** The queue is FIFO with first-come admission: after any offers it holds
      the old contents followed by the earliest offered events that fit. */
  lemma {:induction false} OfferAllKeepsEarliest(queue: seq<string>, xs: seq<string>)
    requires |queue| <= EventCapacity
    ensures OfferAll(queue, xs) == (queue + xs)[..Min(|queue| + |xs|, EventCapacity)]
    decreases |xs|
  {
    if xs != [] {
      var q1 := Offer(queue, xs[0]);
      OfferAllKeepsEarliest(q1, xs[1..]);
      if |queue| < EventCapacity {
        assert q1 + xs[1..] == queue + xs;
      } else {
        assert (q1 + xs[1..])[..EventCapacity] == queue;
        assert (queue + xs)[..EventCapacity] == queue;
      }
    } else {
      assert queue + xs == queue;
    }
  }

  /** The plugin object: the follow-dog table and the hot-event queue.
      Both fields are null until init creates them; `initialized` records
      whether it has. */
  class HeatRecommendation {
    var platformFollowDogMap: map<string, seq<FollowDog>>
    var hotEventList: seq<string>
    var initialized: bool

    ghost predicate Valid()
      reads this
    {
      |hotEventList| <= EventCapacity
    }

    /** The constructor only hands its arguments to the plugin base class:
        neither field exists yet. */
    constructor ()
      ensures Valid() && !initialized
    {
      platformFollowDogMap, hotEventList, initialized := map[], [], false;
    }

    /** init: `modules` are the module settings read from the configuration
        file, None when reading or parsing them fails (init then returns
        false with empty structures); `pluginInit` is what the plugin base
        class's init() answers once the table is built. */
    method Init(modules: Option<seq<HotModuleSetting>>, pluginInit: bool) returns (ok: bool)
      modifies this
      ensures Valid() && initialized && hotEventList == []
      ensures ok == (modules.Some? && pluginInit)
      ensures platformFollowDogMap == if modules.Some? then FollowDogMap(modules.value) else map[]
    {
      platformFollowDogMap := map[];
      hotEventList := [];
      initialized := true;
      if modules.None? {
        return false;
      }
      var ms := modules.value;
      for i := 0 to |ms|
        invariant hotEventList == [] && initialized
        invariant platformFollowDogMap == FollowDogMap(ms[..i])
      {
        assert ms[..i + 1][..i] == ms[..i];
        var setting := ms[i];
        if setting.followDogEnable {
          platformFollowDogMap := platformFollowDogMap[setting.platform := setting.followDogs];
        }
      }
      assert ms[..|ms|] == ms;
      return pluginInit;
    }

    /** sendHotEvent: the queue must exist, i.e. init has run. */
    method SendHotEvent(platform: string)
      requires Valid() && initialized
      modifies this
      ensures Valid()
      ensures hotEventList == Offer(old(hotEventList), platform)
      ensures platformFollowDogMap == old(platformFollowDogMap) && initialized
    {
      if |hotEventList| < EventCapacity {
        hotEventList := hotEventList + [platform];
      }
    }

    /** shutdown, queue part: the sentinel goes in only when the queue is empty. */
    method Shutdown()
      requires Valid() && initialized
      modifies this
      ensures Valid()
      ensures hotEventList == if old(hotEventList) == [] then [ShutdownSign] else old(hotEventList)
      ensures platformFollowDogMap == old(platformFollowDogMap) && initialized
    {
      if hotEventList == [] {
        hotEventList := Offer(hotEventList, ShutdownSign);
      }
    }
  }
}
