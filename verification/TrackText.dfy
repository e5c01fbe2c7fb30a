/** Readers of the event log recover the track state from the texts of events. */
module TrackText {
  import opened Text
  import opened SessionTypes
  import opened Messages

  /** Whether an event's summary or details contain a word. */
  predicate Mentions(e: Event, word: string) {
    Contains(e.summary, word) || Contains(e.details, word)
  }

  predicate EventTrackActive(e: Event) {
    if Mentions(e, "dropped") || Mentions(e, "disabled") || Mentions(e, "unguided_intercept") then false
    else Mentions(e, "acquired") || Mentions(e, "established") || Mentions(e, "enabled") || Mentions(e, "tracked_intercept")
  }

  predicate TellsTrack(e: Event) { e.eventType in {EngageOrderAccepted, TrackUpdated} }

  /** The track state told by the last event that tells one. */
  function LastTold(events: seq<Event>): Option<bool> {
    if events == [] then None
    else
      var e := events[|events| - 1];
      if TellsTrack(e) then Some(EventTrackActive(e)) else LastTold(events[..|events| - 1])
  }

  /** The artifact writers' scan, newest event first; the snapshot decides when no event does. */
  method ArtifactTrackActive(events: seq<Event>, snapshot: Snapshot) returns (active: bool)
    ensures active == match LastTold(events) case Some(told) => told case None => snapshot.track.active
  {
    var i := |events|;
    assert events[..i] == events;
    while i > 0
      invariant 0 <= i <= |events|
      invariant LastTold(events) == LastTold(events[..i])
    {
      i := i - 1;
      assert events[..i + 1][..i] == events[..i];
      if TellsTrack(events[i]) {
        return EventTrackActive(events[i]);
      }
    }
    active := snapshot.track.active;
  }

  // ---------------------------------------------------------------------------
  // The texts the session writes

  predicate Unmarked(text: string) {
    !Contains(text, "dropped") && !Contains(text, "disabled") && !Contains(text, "unguided_intercept")
  }

  lemma NoPairNoPattern(w: string, p: string)
    requires |p| >= 2 && forall i :: 0 <= i < |w| - 1 ==> w[i] != p[0] || w[i + 1] != p[1]
    ensures !Contains(w, p)
  {
    forall i | 0 <= i <= |w| ensures !OccursAt(w, p, i) {
      if i + |p| <= |w| {
        assert w[i..i + |p|][0] == w[i] && w[i..i + |p|][1] == w[i + 1];
      }
    }
  }

  lemma UnmarkedWord(w: string)
    requires forall i :: 0 <= i < |w| - 1 ==> w[i] == 'd' ==> w[i + 1] !in {'r', 'i'}
    requires |w| < 18 || forall i :: 0 <= i < |w| - 1 ==> w[i] == 'u' ==> w[i + 1] != 'n'
    ensures Unmarked(w)
  {
    NoPairNoPattern(w, "dropped");
    NoPairNoPattern(w, "disabled");
    if |w| >= 18 { NoPairNoPattern(w, "unguided_intercept"); }
  }

  lemma UnmarkedSentence(words: seq<string>)
    requires forall w <- words :: Unmarked(w)
    ensures Unmarked(Sentence(words))
  {
    hide Contains, Sentence;
    SentenceWithout(words, "dropped");
    SentenceWithout(words, "disabled");
    SentenceWithout(words, "unguided_intercept");
  }

  lemma SentenceWithout(words: seq<string>, p: string)
    requires p != "" && ' ' !in p && forall w <- words :: !Contains(w, p)
    ensures !Contains(Sentence(words), p)
  {
    hide Contains, Sentence;
    assert forall k :: 0 <= k < |words| ==> words[k] in words;
    if Contains(Sentence(words), p) {
      PatternIsInsideAWord(words, p);
    }
  }

  lemma {:induction false} WordIsInSentence(words: seq<string>, k: nat, p: string, at: nat)
    requires k < |words| && OccursAt(words[k], p, at)
    ensures Contains(Sentence(words), p)
  {
    var s := Sentence(words);
    if k == 0 {
      assert s[at..at + |p|] == words[0][at..at + |p|];
      assert OccursAt(s, p, at);
    } else {
      WordIsInSentence(words[1..], k - 1, p, at);
      var rest := Sentence(words[1..]);
      var i :| 0 <= i <= |rest| && OccursAt(rest, p, i);
      var j := |words[0]| + 1 + i;
      assert s[j..j + |p|] == rest[i..i + |p|];
      assert OccursAt(s, p, j);
    }
  }

  lemma NumberIsUnmarked(n: int)
    ensures Unmarked(IntText(n))
  {
    var t := IntText(n);
    assert forall c <- t :: c == '-' || IsDigit(c);
    assert forall i :: 0 <= i < |t| ==> t[i] in t;
    UnmarkedWord(t);
  }

  lemma PlainWordsAreUnmarked()
    ensures forall m <- {TrackEstablished, OrderExecuted, FirstTrackDetails, NextTrackDetails} ::
              forall w <- Words(m) :: Unmarked(w)
  {
    UnmarkedWord("Track"); UnmarkedWord("file"); UnmarkedWord("established");
    UnmarkedWord("Fire"); UnmarkedWord("order"); UnmarkedWord("executed");
    UnmarkedWord("A"); UnmarkedWord("target"); UnmarkedWord("track"); UnmarkedWord("is"); UnmarkedWord("now");
    UnmarkedWord("available"); UnmarkedWord("for"); UnmarkedWord("pre-launch"); UnmarkedWord("fire");
    UnmarkedWord("control."); UnmarkedWord("The"); UnmarkedWord("was"); UnmarkedWord("re-established");
    UnmarkedWord("while"); UnmarkedWord("the"); UnmarkedWord("interceptor"); UnmarkedWord("remained");
    UnmarkedWord("ready.");
    hide Unmarked;
  }

  lemma TrackedLaunchIsUnmarked(angleDeg: int)
    ensures forall w <- Words(LaunchDetails(true, angleDeg)) :: Unmarked(w)
  {
    NumberIsUnmarked(angleDeg);
    UnmarkedWord("The"); UnmarkedWord("authoritative"); UnmarkedWord("server"); UnmarkedWord("executed");
    UnmarkedWord("the"); UnmarkedWord("fire"); UnmarkedWord("order"); UnmarkedWord("and"); UnmarkedWord("launched");
    UnmarkedWord("interceptor"); UnmarkedWord("on"); UnmarkedWord("a"); UnmarkedWord("tracked_intercept");
    UnmarkedWord("path"); UnmarkedWord("at"); UnmarkedWord("deg.");
    hide Unmarked, IntText;
  }

  lemma EstablishedIsTold(e: Event)
    requires e.summary == Say(TrackEstablished) && (e.details == Say(FirstTrackDetails) || e.details == Say(NextTrackDetails))
    ensures EventTrackActive(e)
  {
    hide Sentence, Contains;
    PlainWordsAreUnmarked();
    UnmarkedSentence(Words(TrackEstablished));
    UnmarkedSentence(Words(FirstTrackDetails));
    UnmarkedSentence(Words(NextTrackDetails));
    assert OccursAt(Words(TrackEstablished)[2], "established", 0);
    WordIsInSentence(Words(TrackEstablished), 2, "established", 0);
  }

  lemma DropIsTold(e: Event)
    requires e.summary == Say(TrackDropped)
    ensures !EventTrackActive(e)
  {
    assert OccursAt(Words(TrackDropped)[2], "dropped", 0);
    WordIsInSentence(Words(TrackDropped), 2, "dropped", 0);
    hide Sentence, Contains;
  }

  lemma LaunchIsTold(e: Event, tracked: bool, angleDeg: int)
    requires e.summary == Say(OrderExecuted) && e.details == Say(LaunchDetails(tracked, angleDeg))
    ensures EventTrackActive(e) == tracked
  {
    hide Sentence, Contains, IntText;
    var words := Words(LaunchDetails(tracked, angleDeg));
    if tracked {
      PlainWordsAreUnmarked();
      UnmarkedSentence(Words(OrderExecuted));
      TrackedLaunchIsUnmarked(angleDeg);
      UnmarkedSentence(words);
      assert OccursAt(words[13], "tracked_intercept", 0);
      WordIsInSentence(words, 13, "tracked_intercept", 0);
    } else {
      assert OccursAt(words[13], "unguided_intercept", 0);
      WordIsInSentence(words, 13, "unguided_intercept", 0);
    }
  }
}
