/**
 The incremental render gate of the report directory: one page, its source log, and passes of two tiers.

 A page's own modification time is the stamp that tells later passes which tier rendered it. The
 filesystem may round a stamp down when it is set. Times are in nanoseconds.
 */
module RenderGate {
  import opened Basics

  const SUPPRESSED_DELTA: nat := 2000
  const TICK_SLACK: nat := 1000

  datatype Tier = Suppressed | Full

  /** A page, the tier that rendered it, and its modification time as the filesystem reports it. */
  datatype Page = Page(tier: Tier, stamp: nat)

  /** One pass: its tier, whether it is forced, and how much the filesystem rounds a stamp off. */
  datatype Pass = Pass(tier: Tier, force: bool, loss: nat)

  function StampFor(mtime: nat, tier: Tier): nat {
    if tier.Full? then mtime else if mtime >= SUPPRESSED_DELTA then mtime - SUPPRESSED_DELTA else 0
  }

  function Rounded(stamp: nat, loss: nat): nat {
    if loss <= stamp then stamp - loss else 0
  }

  predicate Renders(mtime: nat, page: Option<Page>, pass: Pass) {
    pass.force || page.None? || page.value.stamp < StampFor(mtime, pass.tier) - TICK_SLACK
  }

  function Next(mtime: nat, page: Option<Page>, pass: Pass): Option<Page> {
    if Renders(mtime, page, pass) then Some(Page(pass.tier, Rounded(StampFor(mtime, pass.tier), pass.loss))) else page
  }

  class Report {
    const mtime: nat
    var page: Option<Page>
    var written: nat

    constructor (mtime: nat)
      ensures this.mtime == mtime && page == None && written == 0
    {
      this.mtime := mtime;
      page, written := None, 0;
    }

    /** A pass over a completed log. */
    method Render(pass: Pass)
      modifies this
      ensures page == Next(mtime, old(page), pass)
      ensures written == old(written) + (if Renders(mtime, old(page), pass) then 1 else 0)
    {
      var stamp := if mtime < SUPPRESSED_DELTA && pass.tier.Suppressed? then 0
                   else mtime - (if pass.tier.Suppressed? then SUPPRESSED_DELTA else 0);
      if pass.force || page.None? || page.value.stamp < stamp - TICK_SLACK {
        page := Some(Page(pass.tier, Rounded(stamp, pass.loss)));
        written := written + 1;
      }
    }
  }

  // ---------------------------------------------------------------- runs of passes

  /** Nobody forces a render, and stamps lose at most the slack. */
  ghost predicate Ordinary(passes: seq<Pass>) {
    forall i :: 0 <= i < |passes| ==> !passes[i].force && passes[i].loss <= TICK_SLACK
  }

  function After(mtime: nat, passes: seq<Pass>): Option<Page> {
    if passes == [] then None else Next(mtime, After(mtime, passes[..|passes| - 1]), passes[|passes| - 1])
  }

  /** How many passes rendered the page. */
  function Writes(mtime: nat, passes: seq<Pass>): nat {
    if passes == [] then 0
    else
      var front, last := passes[..|passes| - 1], passes[|passes| - 1];
      Writes(mtime, front) + (if Renders(mtime, After(mtime, front), last) then 1 else 0)
  }

  /** A page's stamp is its tier's, less at most the slack. */
  predicate Stamped(mtime: nat, page: Page) {
    StampFor(mtime, page.tier) - TICK_SLACK <= page.stamp <= StampFor(mtime, page.tier)
  }

  lemma {:induction false} PagesAreStamped(mtime: nat, passes: seq<Pass>)
    requires Ordinary(passes)
    ensures After(mtime, passes).None? <==> passes == []
    ensures passes != [] ==> Stamped(mtime, After(mtime, passes).value)
  {
    if passes != [] {
      PagesAreStamped(mtime, passes[..|passes| - 1]);
    }
  }

  /** A suppressed pass never touches a full-tier page, and a pass of a page's own tier is idle. */
  lemma NoDowngrade(mtime: nat, page: Page, pass: Pass)
    requires Stamped(mtime, page) && !pass.force && (page.tier.Full? || pass.tier == page.tier)
    ensures Next(mtime, Some(page), pass) == Some(page) && !Renders(mtime, Some(page), pass)
  {
  }

  /** At most two renders ever happen: the first, and one upgrade. */
  lemma {:induction false} AtMostTwoRenders(mtime: nat, passes: seq<Pass>)
    requires Ordinary(passes)
    ensures Writes(mtime, passes) <= 2
    ensures passes != [] ==> Writes(mtime, passes) <= if After(mtime, passes).value.tier.Suppressed? then 1 else 2
  {
    if passes != [] {
      var front, last := passes[..|passes| - 1], passes[|passes| - 1];
      AtMostTwoRenders(mtime, front);
      if front != [] {
        PagesAreStamped(mtime, front);
        var page := After(mtime, front).value;
        if page.tier.Full? || last.tier == page.tier {
          NoDowngrade(mtime, page, last);
        }
      }
    }
  }

  /** Once full, a page stays as it is. */
  lemma {:induction false} FullStays(mtime: nat, passes: seq<Pass>, more: seq<Pass>)
    requires Ordinary(passes + more) && passes != [] && After(mtime, passes).value.tier.Full?
    ensures After(mtime, passes + more) == After(mtime, passes) && Writes(mtime, passes + more) == Writes(mtime, passes)
  {
    if more == [] {
      assert passes + more == passes;
    } else {
      var front, last := more[..|more| - 1], more[|more| - 1];
      assert (passes + more)[..|passes + more| - 1] == passes + front && (passes + more)[|passes + more| - 1] == last;
      OrdinaryFront(passes + more);
      FullStays(mtime, passes, front);
      OrdinaryPrefix(passes, front);
      PagesAreStamped(mtime, passes);
      NoDowngrade(mtime, After(mtime, passes).value, last);
    }
  }

  lemma OrdinaryFront(passes: seq<Pass>)
    requires Ordinary(passes) && passes != []
    ensures Ordinary(passes[..|passes| - 1]) && !passes[|passes| - 1].force
  {
  }

  lemma OrdinaryPrefix(passes: seq<Pass>, more: seq<Pass>)
    requires Ordinary(passes + more)
    ensures Ordinary(passes)
  {
    assert forall i :: 0 <= i < |passes| ==> (passes + more)[i] == passes[i];
  }

  /** A full pass leaves a full-tier page after any passes before it. */
  ghost predicate AlwaysUpgrades(mtime: nat) {
    forall passes: seq<Pass>, last: Pass ::
      Ordinary(passes + [last]) && last.tier.Full? ==> After(mtime, passes + [last]).value.tier.Full?
  }

  lemma UpgradeAt(mtime: nat, passes: seq<Pass>, last: Pass)
    requires mtime > TICK_SLACK && Ordinary(passes + [last]) && last.tier.Full?
    ensures After(mtime, passes + [last]).Some? && After(mtime, passes + [last]).value.tier.Full?
  {
    assert (passes + [last])[..|passes|] == passes && (passes + [last])[|passes|] == last;
    OrdinaryPrefix(passes, [last]);
    PagesAreStamped(mtime, passes);
  }

  /** A log stamped within the first microsecond of the epoch keeps its suppressed page for ever. */
  lemma EarlyLogIsStuck(mtime: nat)
    requires mtime <= TICK_SLACK
    ensures
      var suppressed, full := Pass(Suppressed, false, 0), Pass(Full, false, 0);
      Ordinary([suppressed] + [full]) && After(mtime, [suppressed] + [full]) == Some(Page(Suppressed, 0))
  {
    var suppressed, full := Pass(Suppressed, false, 0), Pass(Full, false, 0);
    assert ([suppressed] + [full])[..1] == [suppressed] && [suppressed][..0] == [];
    assert After(mtime, [suppressed]) == Some(Page(Suppressed, 0));
  }

  /** Exactly: a full pass always upgrades if and only if the log's mtime is above the slack. */
  lemma UpgradesIff(mtime: nat)
    ensures AlwaysUpgrades(mtime) <==> mtime > TICK_SLACK
  {
    if mtime > TICK_SLACK {
      forall passes: seq<Pass>, last: Pass | Ordinary(passes + [last]) && last.tier.Full?
        ensures After(mtime, passes + [last]).value.tier.Full?
      {
        UpgradeAt(mtime, passes, last);
      }
    } else {
      EarlyLogIsStuck(mtime);
    }
  }

  /** A page that lost more than the slack is rendered again by the next pass of its own tier. */
  lemma IdleIff(mtime: nat, tier: Tier, loss: nat)
    requires StampFor(mtime, tier) >= loss
    ensures
      var page := Page(tier, Rounded(StampFor(mtime, tier), loss));
      !Renders(mtime, Some(page), Pass(tier, false, loss)) <==> loss <= TICK_SLACK
  {
  }
}
