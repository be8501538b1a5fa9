/**
 * `get_current_drag_based_on_boost`: the drag sent with a shot when the caller gives
 * none, from the boost configured for the group of the current club.
 */
module DragDefault {
  import opened Wrappers
  import opened Text
  import opened JsonValues
  import opened Configuration

  /** Python's `len(club) > k and needle in club[k]`. */
  function HasAt(club: Json, k: nat, needle: string): Option<bool> {
    var n :- Len(club);
    if n <= k then Some(false)
    else
      var element :- Index(club, k);
      In(needle, element)
  }

  /**
   * The boost group of the club, tested in the source's if/elif order; `Some(None)`
   * when no test matches and `None` when a test raises (a club that is not a
   * string, list or dict, or a dict whose `club[0]` lookup fails).
   */
  function ClubGroup(club: Json): Option<Option<BoostKey>> {
    var driver :- In("DR", club);
    if driver then Some(Some(Driver)) else
    var wood :- HasAt(club, 0, "W");
    if wood then Some(Some(Wood)) else
    var iron :- In("I", club);
    if iron then Some(Some(Iron)) else
    var wedge :- HasAt(club, 1, "W");
    if wedge then Some(Some(Wedge)) else
    var putter :- In("PT", club);
    if putter then Some(Some(Putter)) else Some(None)
  }

  /** The test each group applies to a club name. */
  predicate ClubRule(k: BoostKey, s: string) {
    match k
    case Driver => Contains("DR", s)
    case Wood => |s| > 0 && s[0] == 'W'
    case Iron => Contains("I", s)
    case Wedge => |s| > 1 && s[1] == 'W'
    case Putter => Contains("PT", s)
  }

  lemma OneCharContains(c: char, d: char)
    ensures Contains([c], [d]) <==> c == d
  {
    ContainsChar(c, [d]);
  }

  /** For a string club, `HasAt` is a test of one character. */
  lemma StringHasAt(s: string, k: nat)
    ensures HasAt(JStr(s), k, "W") == Some(k < |s| && s[k] == 'W')
  {
    if k < |s| {
      OneCharContains('W', s[k]);
    }
  }

  /** The group of a club name when every test is run on a string. */
  function NameGroup(s: string): Option<BoostKey> {
    if ClubRule(Driver, s) then Some(Driver)
    else if ClubRule(Wood, s) then Some(Wood)
    else if ClubRule(Iron, s) then Some(Iron)
    else if ClubRule(Wedge, s) then Some(Wedge)
    else if ClubRule(Putter, s) then Some(Putter)
    else None
  }

  /** A string club never raises, and its group is `NameGroup` of its name. */
  lemma StringClubGroup(s: string)
    ensures ClubGroup(JStr(s)) == Some(NameGroup(s))
  {
    StringHasAt(s, 0);
    StringHasAt(s, 1);
  }

  /** A club name is put in the first group, in `Rank` order, whose test it passes. */
  lemma StringClubFirstRule(s: string, k: BoostKey)
    ensures ClubGroup(JStr(s)) == Some(Some(k)) <==>
            ClubRule(k, s) && forall j: BoostKey :: Rank(j) < Rank(k) ==> !ClubRule(j, s)
  {
    StringClubGroup(s);
    if NameGroup(s) == Some(k) {
      forall j: BoostKey | Rank(j) < Rank(k) ensures !ClubRule(j, s) {
        assert j != k;
      }
    }
  }

  /** A club name that passes no test has no group (boost 0), and never raises. */
  lemma StringClubNoRule(s: string)
    ensures ClubGroup(JStr(s)).Some?
    ensures ClubGroup(JStr(s)) == Some(None) <==> forall k: BoostKey :: !ClubRule(k, s)
  {
    StringClubGroup(s);
  }

  /** Python's `max(min(x, 2.0), 0.0)`. */
  function Clamp(x: real): (r: real)
    ensures 0.0 <= r <= 2.0
    ensures 0.0 <= x <= 2.0 ==> r == x
    ensures x < 0.0 ==> r == 0.0
    ensures x > 2.0 ==> r == 2.0
  {
    if x > 2.0 then 2.0 else if x < 0.0 then 0.0 else x
  }

  /** `config.get(<group>_boost, 0.0)`, and 0.0 for a club in no group. */
  function GroupBoost(cfg: Config, group: Option<BoostKey>): real {
    match group
    case None => 0.0
    case Some(k) => cfg.Boost(k)
  }

  /** The default drag: 1.0 less a hundredth of the boost, clamped to [0, 2]; `None` if the club test raises. */
  function DefaultDrag(club: Json, cfg: Config): (r: Option<real>)
    ensures r.Some? <==> ClubGroup(club).Some?
    ensures r.Some? ==> 0.0 <= r.value <= 2.0
    ensures r.Some? && -100.0 <= GroupBoost(cfg, ClubGroup(club).value) <= 100.0 ==>
              r.value == 1.0 - GroupBoost(cfg, ClubGroup(club).value) / 100.0
    ensures r.Some? && GroupBoost(cfg, ClubGroup(club).value) > 100.0 ==> r.value == 0.0
    ensures r.Some? && GroupBoost(cfg, ClubGroup(club).value) < -100.0 ==> r.value == 2.0
  {
    var group :- ClubGroup(club);
    Some(Clamp(1.0 - GroupBoost(cfg, group) / 100.0))
  }

  /** A club in no group, or whose boost is not configured, gets the drag 1.0. */
  lemma NoBoostGivesUnitDrag(club: Json, cfg: Config)
    requires ClubGroup(club) == Some(None) ||
             (ClubGroup(club).Some? && ClubGroup(club).value.Some? && ClubGroup(club).value.value !in cfg.boosts)
    ensures DefaultDrag(club, cfg) == Some(1.0)
  {
  }

  /** The drag a shot carries: the caller's own value (0 included) or the default. */
  function ResolveDrag(drag: Option<real>, club: Json, cfg: Config): (r: Option<real>)
    ensures drag.Some? ==> r == drag
    ensures drag.None? ==> r == DefaultDrag(club, cfg)
  {
    if drag.Some? then drag else DefaultDrag(club, cfg)
  }
}
