/**
 * The derived values of src/components/ProductivityCastle.tsx: the XP
 * needed for the next level, the capped wellness score and the three
 * decorations it unlocks.
 */
module ProductivityCastle {

  /** The props of the castle; the activity counts are counts, never negative. */
  datatype CastleProps = CastleProps(level: int, xp: int, moodChecks: nat, healSessions: nat, questsCompleted: nat)

  /** What the castle shows for its props. */
  datatype Appearance = Appearance(xpForNextLevel: int, wellnessScore: nat, hasFlowers: bool, hasFlags: bool, hasGlow: bool)

  /** The activity points before the cap: 10 per mood check, 20 per heal session, 15 per quest. */
  function ActivityPoints(moodChecks: nat, healSessions: nat, questsCompleted: nat): nat {
    moodChecks * 10 + healSessions * 20 + questsCompleted * 15
  }

  /** `wellnessScore`: the activity points capped at 100. */
  function WellnessScore(moodChecks: nat, healSessions: nat, questsCompleted: nat): (score: nat)
    ensures score <= 100
    ensures score <= ActivityPoints(moodChecks, healSessions, questsCompleted)
    ensures score == 100 || score == ActivityPoints(moodChecks, healSessions, questsCompleted)
  {
    var points := ActivityPoints(moodChecks, healSessions, questsCompleted);
    if points < 100 then points else 100
  }

  /** `xpForNextLevel`, the wellness score and the three decorations. */
  function Castle(p: CastleProps): (a: Appearance)
    ensures a.xpForNextLevel == p.level * 100
    ensures a.wellnessScore == WellnessScore(p.moodChecks, p.healSessions, p.questsCompleted)
    ensures a.wellnessScore <= 100
    ensures a.hasFlowers <==> p.healSessions >= 1
    ensures a.hasFlags <==> p.questsCompleted >= 1
    ensures a.hasGlow <==> a.wellnessScore >= 50
  {
    var score := WellnessScore(p.moodChecks, p.healSessions, p.questsCompleted);
    Appearance(p.level * 100, score, p.healSessions >= 1, p.questsCompleted >= 1, score >= 50)
  }

  /** More of any activity never lowers the wellness score. */
  lemma WellnessScoreMonotone(m: nat, h: nat, q: nat, m': nat, h': nat, q': nat)
    requires m <= m' && h <= h' && q <= q'
    ensures WellnessScore(m, h, q) <= WellnessScore(m', h', q')
  {
    assert ActivityPoints(m, h, q) <= ActivityPoints(m', h', q');
  }

  /** The glow depends only on the raw activity: it shows once the points reach 50, cap or no cap. */
  lemma GlowThreshold(p: CastleProps)
    ensures Castle(p).hasGlow <==> ActivityPoints(p.moodChecks, p.healSessions, p.questsCompleted) >= 50
  {
  }

  /** The castle for the default props (level 1, no XP, no activity): 100 XP to the next level, score 0, no decoration. */
  lemma DefaultCastle()
    ensures Castle(CastleProps(1, 0, 0, 0, 0)) == Appearance(100, 0, false, false, false)
  {
    assert WellnessScore(0, 0, 0) == 0;
  }
}
