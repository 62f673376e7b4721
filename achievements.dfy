/** The achievement evaluator (AchievementSystem.tsx): the six achievements, the rule that updates
    one of them from the player's statistics, and the refresh that collects the ones it unlocks. */
module Achievements {
  import opened Basics

  datatype Rarity = Common | Rare | Epic | Legendary

  /** An achievement as the component keeps it; the icon is presentation and is left out. */
  datatype Achievement = Achievement(
    id: string,
    name: string,
    description: string,
    unlocked: bool,
    progress: int,
    maxProgress: int,
    rarity: Rarity)

  /** The statistics the component receives as props. */
  datatype Stats = Stats(score: int, totalQuestions: int, currentStreak: int, topicsCompleted: seq<string>)

  function Min(x: int, y: int): int {
    if x <= y then x else y
  }

  /** The list a player starts with. */
  function InitialAchievements(): seq<Achievement> {
    [ Achievement("first_quiz", "Quiz Explorer", "Complete your first quiz!", false, 0, 1, Common),
      Achievement("perfect_score", "Perfect Star", "Get 100% on a quiz!", false, 0, 1, Epic),
      Achievement("streak_master", "Streak Master", "Answer 3 questions correctly in a row!", false, 0, 3, Rare),
      Achievement("topic_explorer", "Topic Explorer", "Complete quizzes on 3 different topics!", false, 0, 3, Rare),
      Achievement("learning_champion", "Learning Champion", "Complete 5 quizzes!", false, 0, 5, Epic),
      Achievement("knowledge_seeker", "Knowledge Seeker", "Answer 50 questions correctly!", false, 0, 50, Legendary) ]
  }

  predicate KnownId(id: string) {
    id in ["first_quiz", "perfect_score", "streak_master", "topic_explorer", "learning_champion", "knowledge_seeker"]
  }

  /** The progress an achievement needs, by id. */
  function Cap(id: string): int {
    match id
    case "first_quiz" => 1
    case "perfect_score" => 1
    case "streak_master" => 3
    case "topic_explorer" => 3
    case "learning_champion" => 5
    case _ => 50
  }

  /** Quizzes completed, counted as four questions each: `Math.floor(score / 4)`. */
  function QuizzesCompleted(st: Stats): int {
    st.score / 4
  }

  /** The condition under which an update unlocks the achievement with this id. */
  predicate UnlockCondition(id: string, st: Stats) {
    match id
    case "first_quiz" => st.totalQuestions > 0
    case "perfect_score" => st.score == st.totalQuestions && st.totalQuestions > 0
    case "streak_master" => st.currentStreak >= 3
    case "topic_explorer" => |st.topicsCompleted| >= 3
    case "learning_champion" => QuizzesCompleted(st) >= 5
    case "knowledge_seeker" => st.score >= 50
    case _ => false
  }

  /** One achievement after an update: a copy whose progress and unlocked flag follow its rule. */
  function Updated(a: Achievement, st: Stats): (r: Achievement)
    ensures r.id == a.id && r.name == a.name && r.description == a.description
    ensures r.maxProgress == a.maxProgress && r.rarity == a.rarity
    ensures r.unlocked <==> a.unlocked || UnlockCondition(a.id, st)
    ensures !KnownId(a.id) ==> r == a
    ensures a.id == "streak_master" ==> r.progress == Min(st.currentStreak, 3)
    ensures a.id == "topic_explorer" ==> r.progress == Min(|st.topicsCompleted|, 3)
    ensures a.id == "learning_champion" ==> r.progress == Min(QuizzesCompleted(st), 5)
    ensures a.id == "knowledge_seeker" ==> r.progress == Min(st.score, 50)
    ensures (a.id == "first_quiz" || a.id == "perfect_score") ==>
              r.progress == (if UnlockCondition(a.id, st) then 1 else a.progress)
  {
    match a.id
    case "first_quiz" =>
      if st.totalQuestions > 0 then a.(progress := 1, unlocked := true) else a
    case "perfect_score" =>
      if st.score == st.totalQuestions && st.totalQuestions > 0 then a.(progress := 1, unlocked := true) else a
    case "streak_master" =>
      a.(progress := Min(st.currentStreak, 3), unlocked := a.unlocked || st.currentStreak >= 3)
    case "topic_explorer" =>
      a.(progress := Min(|st.topicsCompleted|, 3), unlocked := a.unlocked || |st.topicsCompleted| >= 3)
    case "learning_champion" =>
      var quizzes := QuizzesCompleted(st);
      a.(progress := Min(quizzes, 5), unlocked := a.unlocked || quizzes >= 5)
    case "knowledge_seeker" =>
      a.(progress := Min(st.score, 50), unlocked := a.unlocked || st.score >= 50)
    case _ => a
  }

  predicate NonNegative(st: Stats) {
    st.score >= 0 && st.totalQuestions >= 0 && st.currentStreak >= 0
  }

  /** A known achievement carries its own cap, keeps its progress within it, and is unlocked once the
      progress reaches the cap. */
  predicate WellFormed(a: Achievement) {
    KnownId(a.id) ==>
      && a.maxProgress == Cap(a.id)
      && 0 <= a.progress <= a.maxProgress
      && (a.progress == a.maxProgress ==> a.unlocked)
  }

  /** The initial list: six achievements in fixed order, all locked at progress 0, with the caps
      1, 1, 3, 3, 5 and 50, each well formed. */
  lemma InitialAchievementsShape()
    ensures var init := InitialAchievements();
            && |init| == 6
            && (forall i :: 0 <= i < 6 ==> !init[i].unlocked && init[i].progress == 0 && WellFormed(init[i]))
            && [init[0].maxProgress, init[1].maxProgress, init[2].maxProgress,
                init[3].maxProgress, init[4].maxProgress, init[5].maxProgress] == [1, 1, 3, 3, 5, 50]
            && (forall i, j :: 0 <= i < j < 6 ==> init[i].id != init[j].id)
  {
    var init := InitialAchievements();
    forall i | 0 <= i < 6
      ensures !init[i].unlocked && init[i].progress == 0 && WellFormed(init[i])
    {
      assert KnownId(init[i].id);
    }
  }

  /** For nonnegative statistics an update keeps an achievement well formed: the progress stays
      within its cap and reaching the cap unlocks. */
  lemma UpdatedKeepsWellFormed(a: Achievement, st: Stats)
    requires WellFormed(a) && NonNegative(st)
    ensures WellFormed(Updated(a, st))
  {
    if a.id == "learning_champion" {
      assert QuizzesCompleted(st) >= 0;
    }
  }

  /** Updating twice with the same statistics unlocks nothing new the second time. */
  lemma UpdatedIdempotentOnUnlock(a: Achievement, st: Stats)
    ensures Updated(Updated(a, st), st).unlocked == Updated(a, st).unlocked
  {
  }

  // ---------------------------------------------------------------------------------------------
  // The refresh of the whole list

  function UpdatedAll(list: seq<Achievement>, st: Stats): (r: seq<Achievement>)
    ensures |r| == |list|
    ensures forall i :: 0 <= i < |list| ==> r[i] == Updated(list[i], st)
  {
    seq(|list|, i requires 0 <= i < |list| => Updated(list[i], st))
  }

  /** The entries of `after` that are unlocked while the entry at the same place in `before` was not,
      in list order. */
  function Flipped(before: seq<Achievement>, after: seq<Achievement>): (r: seq<Achievement>)
    requires |before| == |after|
    ensures |r| <= |after|
  {
    if |after| == 0 then []
    else
      var n := |after| - 1;
      Flipped(before[..n], after[..n]) + (if after[n].unlocked && !before[n].unlocked then [after[n]] else [])
  }

  /** What the newly-unlocked list gains is exactly the achievements that flipped to unlocked. */
  lemma {:induction false} FlippedMembers(before: seq<Achievement>, after: seq<Achievement>, x: Achievement)
    requires |before| == |after|
    ensures x in Flipped(before, after) <==>
            exists k :: 0 <= k < |after| && after[k] == x && after[k].unlocked && !before[k].unlocked
  {
    if |after| > 0 {
      var n := |after| - 1;
      FlippedMembers(before[..n], after[..n], x);
      if x in Flipped(before[..n], after[..n]) {
        var k :| 0 <= k < n && after[..n][k] == x && after[..n][k].unlocked && !before[..n][k].unlocked;
        assert after[k] == x && !before[k].unlocked;
      }
      if exists k :: 0 <= k < |after| && after[k] == x && after[k].unlocked && !before[k].unlocked {
        var k :| 0 <= k < |after| && after[k] == x && after[k].unlocked && !before[k].unlocked;
        if k < n {
          assert after[..n][k] == x && !before[..n][k].unlocked;
        }
      }
    }
  }

  lemma UpdatedAllAppend(list: seq<Achievement>, a: Achievement, st: Stats)
    ensures UpdatedAll(list + [a], st) == UpdatedAll(list, st) + [Updated(a, st)]
  {
    assert forall i :: 0 <= i < |list| ==> (list + [a])[i] == list[i];
  }

  /** Extending both lists by one entry extends the flipped list by that entry when it flipped. */
  lemma FlippedAppend(before: seq<Achievement>, after: seq<Achievement>, b: Achievement, a: Achievement)
    requires |before| == |after|
    ensures Flipped(before + [b], after + [a]) ==
            Flipped(before, after) + (if a.unlocked && !b.unlocked then [a] else [])
  {
    assert (before + [b])[..|before|] == before;
    assert (after + [a])[..|after|] == after;
  }

  /** Refreshing a list that was just refreshed with the same statistics unlocks nothing. */
  lemma {:induction false} SecondRefreshFlipsNothing(list: seq<Achievement>, st: Stats)
    ensures Flipped(UpdatedAll(list, st), UpdatedAll(UpdatedAll(list, st), st)) == []
  {
    var once := UpdatedAll(list, st);
    var twice := UpdatedAll(once, st);
    forall k | 0 <= k < |twice|
      ensures !(twice[k].unlocked && !once[k].unlocked)
    {
      UpdatedIdempotentOnUnlock(list[k], st);
    }
    if Flipped(once, twice) != [] {
      FlippedMembers(once, twice, Flipped(once, twice)[0]);
      assert false;
    }
  }

  /** The component's achievement state: the list, the newly-unlocked list it shows, and the
      achievements handed to the `onAchievementUnlocked` callback, in order. */
  class AchievementBoard {
    var achievements: seq<Achievement>
    var newlyUnlocked: seq<Achievement>
    var announced: seq<Achievement>

    constructor ()
      ensures achievements == [] && newlyUnlocked == [] && announced == []
    {
      achievements, newlyUnlocked, announced := [], [], [];
    }

    /** The mount effect: a stored list when there is one, otherwise the initial list. */
    method Load(stored: Option<seq<Achievement>>)
      modifies this`achievements
      ensures achievements == if stored.Some? then stored.value else InitialAchievements()
    {
      if stored.Some? {
        achievements := stored.value;
      } else {
        achievements := InitialAchievements();
      }
    }

    /** The update effect: nothing while the list is empty; otherwise every achievement is updated,
        and the ones that flip to unlocked are appended to `newlyUnlocked` and, when a callback is
        given, announced to it. */
    method Refresh(st: Stats, hasCallback: bool)
      modifies this
      ensures old(achievements) == [] ==>
                achievements == [] && newlyUnlocked == old(newlyUnlocked) && announced == old(announced)
      ensures old(achievements) != [] ==>
                && achievements == UpdatedAll(old(achievements), st)
                && newlyUnlocked == old(newlyUnlocked) + Flipped(old(achievements), achievements)
                && announced == old(announced) + (if hasCallback then Flipped(old(achievements), achievements) else [])
    {
      if |achievements| == 0 {
        return;
      }
      var list := achievements;
      var updated: seq<Achievement> := [];
      ghost var flipped: seq<Achievement> := [];
      var i := 0;
      while i < |list|
        invariant 0 <= i <= |list|
        invariant updated == UpdatedAll(list[..i], st)
        invariant flipped == Flipped(list[..i], updated)
        invariant newlyUnlocked == old(newlyUnlocked) + flipped
        invariant announced == old(announced) + (if hasCallback then flipped else [])
      {
        var next := Updated(list[i], st);
        assert list[..i + 1] == list[..i] + [list[i]];
        UpdatedAllAppend(list[..i], list[i], st);
        FlippedAppend(list[..i], updated, list[i], next);
        if next.unlocked && !list[i].unlocked {
          newlyUnlocked := newlyUnlocked + [next];
          if hasCallback {
            announced := announced + [next];
          }
          flipped := flipped + [next];
        }
        updated := updated + [next];
        i := i + 1;
      }
      assert list[..i] == list;
      achievements := updated;
    }
  }
}
