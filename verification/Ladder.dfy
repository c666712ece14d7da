/** The compaction ladder: which level merges next, why merging stops whatever erasures
    did before, how deep it gets. */
module Ladder {
  import opened Base

  type Run = nat         // the commit that created a part
  type Level = nat

  /** A live part of one partition. */
  datatype LivePart = LivePart(id: nat, level: Level, run: Run)

  datatype Config = Config(l0Fanout: nat, fanout: nat)

  function Trigger(cfg: Config, level: Level): nat {
    if level == 0 then cfg.l0Fanout else cfg.fanout
  }

  // ---------------------------------------------------------------- planning

  function AtLevel(parts: seq<LivePart>, level: Level): seq<LivePart> {
    if parts == [] then []
    else AtLevel(parts[..|parts| - 1], level) + (if parts[|parts| - 1].level == level then [parts[|parts| - 1]] else [])
  }

  function RunsOf(parts: seq<LivePart>): set<Run> {
    set p | p in parts :: p.run
  }

  /** The level has as many live runs as its trigger asks for. */
  predicate Eligible(cfg: Config, parts: seq<LivePart>, level: Level) {
    AtLevel(parts, level) != [] && |RunsOf(AtLevel(parts, level))| >= Trigger(cfg, level)
  }

  /** The trigger counts the distinct commits that have a part of the list at the level:
      `l0Fanout` of them make level 0 ready, `fanout` any other. */
  lemma EligibleMeans(cfg: Config, parts: seq<LivePart>, level: Level)
    ensures Eligible(cfg, parts, level) <==>
            var runs := set p | p in parts && p.level == level :: p.run;
            runs != {} && |runs| >= (if level == 0 then cfg.l0Fanout else cfg.fanout)
  {
    hide AtLevel;
    AtLevelMembers(parts, level);
    var runs := set p | p in parts && p.level == level :: p.run;
    assert RunsOf(AtLevel(parts, level)) == runs;
    if AtLevel(parts, level) != [] {
      var p := AtLevel(parts, level)[0];
      assert p in AtLevel(parts, level) && p.run in runs;
    }
  }

  /** The parts of each level, in the order given. */
  method ByLevel(parts: seq<LivePart>) returns (byLevel: map<Level, seq<LivePart>>)
    ensures forall level: Level :: level in byLevel <==> AtLevel(parts, level) != []
    ensures forall level: Level :: level in byLevel ==> byLevel[level] == AtLevel(parts, level)
  {
    byLevel := map[];
    for i := 0 to |parts|
      invariant forall level: Level :: level in byLevel <==> AtLevel(parts[..i], level) != []
      invariant forall level: Level :: level in byLevel ==> byLevel[level] == AtLevel(parts[..i], level)
    {
      var part := parts[i];
      assert parts[..i + 1][..i] == parts[..i];
      var group := if part.level in byLevel then byLevel[part.level] else [];
      byLevel := byLevel[part.level := group + [part]];
    }
    assert parts[..|parts|] == parts;
  }

  /** The least level whose runs have reached its trigger, with all its parts. */
  method EligibleLevel(cfg: Config, parts: seq<LivePart>) returns (r: Option<(Level, seq<LivePart>)>)
    ensures r.None? ==> forall level: Level :: !Eligible(cfg, parts, level)
    ensures r.Some? ==> Eligible(cfg, parts, r.value.0) && r.value.1 == AtLevel(parts, r.value.0)
                        && forall level: Level :: level < r.value.0 ==> !Eligible(cfg, parts, level)
    ensures r.Some? ==> forall p :: p in r.value.1 <==> p in parts && p.level == r.value.0
  {
    hide RunsOf; hide AtLevel;
    var byLevel := ByLevel(parts);
    var levels := byLevel.Keys;
    while levels != {}
      invariant levels <= byLevel.Keys
      invariant forall level: Level :: level in byLevel && level !in levels ==> !Eligible(cfg, parts, level)
    {
      ghost var any :| any in levels;
      LeastMember(levels, any);
      var level :| level in levels && forall l :: l in levels ==> level <= l;
      if |RunsOf(byLevel[level])| >= Trigger(cfg, level) {
        forall l: Level | l < level ensures !Eligible(cfg, parts, l) { assert l !in levels; }
        AtLevelMembers(parts, level);
        return Some((level, byLevel[level]));
      }
      levels := levels - {level};
    }
    return None;
  }

  // ---------------------------------------------------------------- runs over time

  /** The live parts, the next commit, and — history — the ingested runs behind each
      commit and the ingested runs themselves. A commit may have live parts at several
      levels: an erasure rewrites every part at its own. */
  datatype Partition = Partition(live: set<LivePart>, next: Run, sources: map<Run, set<Run>>, ingested: set<Run>)

  const Empty := Partition({}, 0, map[], {})

  /** A merge or a finalization takes what the state numbered `at` held and commits later;
      `outs` are the ids of its files, none when its inputs held no row. An erasure
      rewrites or drops any live parts. */
  datatype Step =
    | Ingest(outs: set<nat>)
    | Merge(at: nat, level: Level, outs: set<nat>)
    | Finalize(at: nat, outs: set<nat>)
    | Erase(inputs: set<LivePart>, kept: map<LivePart, nat>)

  function OfLevel(live: set<LivePart>, level: Level): set<LivePart> {
    set p | p in live && p.level == level
  }

  function Runs(parts: set<LivePart>): set<Run> {
    set p | p in parts :: p.run
  }

  /** The runs as the planner counts them: one for each level a commit has parts at. */
  function Pairs(parts: set<LivePart>): set<(Level, Run)> {
    set p | p in parts :: (p.level, p.run)
  }

  predicate Ready(cfg: Config, live: set<LivePart>, level: Level) {
    OfLevel(live, level) != {} && |Runs(OfLevel(live, level))| >= Trigger(cfg, level)
  }

  /** What a compaction step planned to replace, from the states so far. */
  function Group(states: seq<Partition>, step: Step): set<LivePart>
    requires step.Merge? || step.Finalize? ==> step.at < |states|
  {
    match step
    case Ingest(_) => {}
    case Merge(at, level, _) => OfLevel(states[at].live, level)
    case Finalize(at, _) => states[at].live
    case Erase(inputs, _) => inputs
  }

  /** Above every level of the parts. */
  function Top(parts: set<LivePart>): (top: Level)
    ensures forall p :: p in parts ==> p.level < top
    ensures parts != {} ==> exists p :: p in parts && p.level + 1 == top
  {
    if parts == {} then 0
    else
      LevelsBounded(parts);
      var top: Level :| IsTop(parts, top);
      TopUnique(parts);
      top
  }

  predicate IsTop(parts: set<LivePart>, top: Level) {
    (forall p :: p in parts ==> p.level < top) && exists p :: p in parts && p.level + 1 == top
  }

  lemma TopUnique(parts: set<LivePart>)
    ensures forall a, b :: IsTop(parts, a) && IsTop(parts, b) ==> a == b
  {
  }

  lemma {:induction false} LevelsBounded(parts: set<LivePart>)
    requires parts != {}
    ensures exists top :: IsTop(parts, top)
  {
    var p :| p in parts;
    if parts == {p} {
      assert IsTop(parts, p.level + 1);
    } else {
      LevelsBounded(parts - {p});
      var t :| IsTop(parts - {p}, t);
      if p.level < t {
        var q :| q in parts - {p} && q.level + 1 == t;
        assert IsTop(parts, t) by { assert q in parts; }
      } else {
        assert IsTop(parts, p.level + 1);
      }
    }
  }

  /** A plan commits while all it planned to replace is still live. */
  predicate Enabled(cfg: Config, states: seq<Partition>, step: Step)
    requires states != []
  {
    var s := states[|states| - 1];
    match step
    case Ingest(outs) => outs != {}
    case Merge(at, level, _) =>
      at < |states| && Ready(cfg, states[at].live, level) && Group(states, step) <= s.live
    case Finalize(at, _) =>
      at < |states| && |Runs(states[at].live)| >= 2 && Group(states, step) <= s.live
    case Erase(inputs, kept) => inputs != {} && inputs <= s.live && kept.Keys <= inputs
  }

  /** A finalization may be planned exactly when two live parts are of different commits. */
  lemma FinalizeMeans(cfg: Config, states: seq<Partition>, outs: set<nat>)
    requires states != []
    ensures Enabled(cfg, states, Finalize(|states| - 1, outs))
            <==> exists p, q :: p in states[|states| - 1].live && q in states[|states| - 1].live && p.run != q.run
  {
    var live := states[|states| - 1].live;
    var runs := Runs(live);
    if p, q :| p in live && q in live && p.run != q.run {
      assert {p.run, q.run} <= runs;
      SubsetCardinality({p.run, q.run}, runs);
    } else if p :| p in live {
      assert forall r :: r in runs ==> r == p.run;
      assert runs == {p.run};
    } else {
      assert runs == {};
    }
  }

  function Written(outs: set<nat>, level: Level, run: Run): set<LivePart> {
    set id | id in outs :: LivePart(id, level, run)
  }

  function SourcesOf(sources: map<Run, set<Run>>, runs: set<Run>): set<Run> {
    set r, x | r in runs && r in sources && x in sources[r] :: x
  }

  function Next(cfg: Config, states: seq<Partition>, step: Step): Partition
    requires states != [] && Enabled(cfg, states, step)
  {
    var s := states[|states| - 1];
    var c := s.next;
    match step
    case Ingest(outs) =>
      Partition(s.live + Written(outs, 0, c), c + 1, s.sources[c := {c}], s.ingested + {c})
    case Merge(_, level, outs) =>
      var group := Group(states, step);
      Partition(s.live - group + Written(outs, level + 1, c), c + 1, s.sources[c := SourcesOf(s.sources, Runs(group))], s.ingested)
    case Finalize(_, outs) =>
      var group := Group(states, step);
      Partition(s.live - group + Written(outs, Top(group), c), c + 1, s.sources[c := SourcesOf(s.sources, Runs(group))], s.ingested)
    case Erase(inputs, kept) =>
      Partition(s.live - inputs + set p | p in kept :: LivePart(kept[p], p.level, c), c + 1,
                s.sources[c := SourcesOf(s.sources, Runs(inputs))], s.ingested)
  }

  /** A run of the partition: any interleaving of ingest, merges, finalizations and
      erasures, plans overtaken by other commits included. */
  predicate IsRun(cfg: Config, states: seq<Partition>, steps: seq<Step>) {
    && |states| == |steps| + 1
    && states[0] == Empty
    && forall i :: 0 <= i < |steps| ==> Enabled(cfg, states[..i + 1], steps[i]) && states[i + 1] == Next(cfg, states[..i + 1], steps[i])
  }

  // ---------------------------------------------------------------- a plan takes whole runs

  /** Commits of live parts are drawn, and a part not yet live then carries a later one. */
  predicate Known(s: Partition) {
    forall p :: p in s.live ==> p.run < s.next
  }

  predicate Newer(a: Partition, b: Partition) {
    a.next <= b.next && forall p :: p in b.live && p !in a.live ==> p.run >= a.next
  }

  lemma StepKnown(cfg: Config, states: seq<Partition>, step: Step)
    requires states != [] && Enabled(cfg, states, step) && Known(states[|states| - 1])
    ensures Known(Next(cfg, states, step)) && Newer(states[|states| - 1], Next(cfg, states, step))
  {
    hide SourcesOf; hide Top; hide Ready; hide Runs;
  }

  lemma {:induction false} AlwaysKnown(cfg: Config, states: seq<Partition>, steps: seq<Step>, i: nat)
    requires IsRun(cfg, states, steps) && i < |states|
    ensures Known(states[i])
  {
    hide Next; hide Enabled;
    if i > 0 {
      AlwaysKnown(cfg, states, steps, i - 1);
      StepKnown(cfg, states[..i], steps[i - 1]);
    }
  }

  lemma {:induction false} LaterIsNewer(cfg: Config, states: seq<Partition>, steps: seq<Step>, i: nat, j: nat)
    requires IsRun(cfg, states, steps) && i <= j < |states|
    ensures Newer(states[i], states[j])
    decreases j - i
  {
    hide Next; hide Enabled; hide Known;
    if i < j {
      LaterIsNewer(cfg, states, steps, i, j - 1);
      AlwaysKnown(cfg, states, steps, j - 1);
      StepKnown(cfg, states[..j], steps[j - 1]);
    }
  }

  /** The parts left share no counted run with the group. */
  predicate Whole(live: set<LivePart>, group: set<LivePart>) {
    group <= live && Pairs(live - group) !! Pairs(group)
  }

  /** Whatever was committed since it was planned, a merge or a finalization replaces its
      counted runs entirely. */
  lemma PlansTakeWholeRuns(cfg: Config, states: seq<Partition>, steps: seq<Step>, j: nat)
    requires IsRun(cfg, states, steps) && j < |steps| && (steps[j].Merge? || steps[j].Finalize?)
    ensures steps[j].at <= j && Whole(states[j].live, Group(states[..j + 1], steps[j]))
  {
    hide Next; hide Ready;
    var step := steps[j];
    assert Enabled(cfg, states[..j + 1], step);
    var group := Group(states[..j + 1], step);
    LaterIsNewer(cfg, states, steps, step.at, j);
    AlwaysKnown(cfg, states, steps, step.at);
    forall p, q | p in states[j].live - group && q in group ensures (p.level, p.run) != (q.level, q.run) {
      assert states[..j + 1][step.at] == states[step.at];
      assert q in states[step.at].live;
    }
  }

  // ---------------------------------------------------------------- merging stops

  function WithoutRun(parts: set<LivePart>, run: Run): set<LivePart> {
    set q | q in parts && q.run != run
  }

  lemma RunApart(parts: set<LivePart>, p: LivePart)
    requires p in parts
    ensures var rest := WithoutRun(parts, p.run);
            && Runs(parts) == Runs(rest) + {p.run} && p.run !in Runs(rest)
            && Pairs(rest) + {(p.level, p.run)} <= Pairs(parts) && (p.level, p.run) !in Pairs(rest)
  {
    var rest := WithoutRun(parts, p.run);
    forall x ensures x in Runs(parts) <==> x in Runs(rest) + {p.run} {
      if x in Runs(parts) { var q :| q in parts && q.run == x; assert q.run == p.run || q in rest; }
    }
  }

  lemma {:induction false} PairsOfLevel(parts: set<LivePart>, level: Level)
    requires forall p :: p in parts ==> p.level == level
    ensures |Pairs(parts)| == |Runs(parts)|
    decreases parts
  {
    hide Runs;
    if parts == {} {
      NoRuns();
    } else {
      var p :| p in parts;
      var rest := WithoutRun(parts, p.run);
      RunApart(parts, p);
      PairsOfLevel(rest, level);
      forall x | x in Pairs(parts) ensures x in Pairs(rest) + {(level, p.run)} {
        var q :| q in parts && (q.level, q.run) == x;
        assert q.run == p.run || q in rest;
      }
      assert Pairs(parts) == Pairs(rest) + {(level, p.run)};
    }
  }

  lemma NoRuns()
    ensures Runs({}) == {} && Pairs({}) == {}
  {
  }

  /** A commit counts at least once for the planner. */
  lemma {:induction false} RunsAtMostPairs(parts: set<LivePart>)
    ensures |Runs(parts)| <= |Pairs(parts)|
    decreases parts
  {
    hide Runs; hide Pairs;
    if parts == {} {
      NoRuns();
    } else {
      var p :| p in parts;
      var rest := WithoutRun(parts, p.run);
      assert rest < parts by { assert p !in rest; }
      RunApart(parts, p);
      RunsAtMostPairs(rest);
      SubsetCardinality(Pairs(rest) + {(p.level, p.run)}, Pairs(parts));
    }
  }

  /** Replacing whole counted runs by files of one new run. */
  lemma PairsAfter(live: set<LivePart>, group: set<LivePart>, outs: set<nat>, level: Level, c: Run)
    requires Whole(live, group)
    ensures |Pairs(live - group + Written(outs, level, c))| <= |Pairs(live)| - |Pairs(group)| + 1
  {
    var rest := Pairs(live - group);
    assert Pairs(live) == rest + Pairs(group) by { PairsSplit(live, group); }
    assert |Pairs(live)| == |rest| + |Pairs(group)|;
    var after := Pairs(live - group + Written(outs, level, c));
    assert after <= rest + {(level, c)};
    SubsetCardinality(after, rest + {(level, c)});
    assert |rest + {(level, c)}| <= |rest| + 1;
  }

  lemma PairsSplit(live: set<LivePart>, group: set<LivePart>)
    requires group <= live
    ensures Pairs(live) == Pairs(live - group) + Pairs(group)
  {
    assert live == (live - group) + group;
    forall x | x in Pairs(live) ensures x in Pairs(live - group) + Pairs(group) {
      var p :| p in live && (p.level, p.run) == x;
      assert p in live - group || p in group;
    }
  }

  /** With triggers of at least two every merge strictly lowers the number of counted
      runs, and so does every finalization — erasures before it or not. */
  lemma CompactionShrinks(cfg: Config, states: seq<Partition>, steps: seq<Step>, j: nat)
    requires cfg.l0Fanout >= 2 && cfg.fanout >= 2
    requires IsRun(cfg, states, steps) && j < |steps| && (steps[j].Merge? || steps[j].Finalize?)
    ensures |Pairs(states[j + 1].live)| < |Pairs(states[j].live)|
    ensures steps[j].Merge? ==> |Pairs(states[j + 1].live)| <= |Pairs(states[j].live)| - Trigger(cfg, steps[j].level) + 1
  {
    hide Whole; hide Pairs; hide Runs; hide SourcesOf; hide Written; hide Top;
    var s, step, group := states[j], steps[j], Group(states[..j + 1], steps[j]);
    PlansTakeWholeRuns(cfg, states, steps, j);
    assert Enabled(cfg, states[..j + 1], step);
    assert states[..j + 1][step.at] == states[step.at];
    if step.Merge? {
      PairsOfLevel(group, step.level);
      PairsAfter(s.live, group, step.outs, step.level + 1, s.next);
    } else {
      RunsAtMostPairs(group);
      PairsAfter(s.live, group, step.outs, Top(group), s.next);
    }
  }

  /** Once ingest and erasure pause, there are fewer merges and finalizations to come than
      counted runs — whatever erasures left behind. */
  lemma {:induction false} CompactionStops(cfg: Config, states: seq<Partition>, steps: seq<Step>, i: nat, j: nat)
    requires cfg.l0Fanout >= 2 && cfg.fanout >= 2 && IsRun(cfg, states, steps) && i <= j < |states|
    requires forall k :: i <= k < j ==> steps[k].Merge? || steps[k].Finalize?
    ensures j - i + |Pairs(states[j].live)| <= |Pairs(states[i].live)|
    decreases j - i
  {
    hide IsRun; hide Pairs;
    RunLength(cfg, states, steps);
    if i < j {
      CompactionStops(cfg, states, steps, i, j - 1);
      CompactionShrinks(cfg, states, steps, j - 1);
    }
  }

  lemma {:induction false} AtLevelMembers(parts: seq<LivePart>, level: Level)
    ensures forall p :: p in AtLevel(parts, level) <==> p in parts && p.level == level
  {
    if parts != [] {
      AtLevelMembers(parts[..|parts| - 1], level);
      assert parts == parts[..|parts| - 1] + [parts[|parts| - 1]];
    }
  }

  /** Whatever list of live parts the planner reads, it finds a level exactly when a merge
      of that level can be committed at once. */
  lemma PlanIsEnabled(cfg: Config, states: seq<Partition>, parts: seq<LivePart>, level: Level, outs: set<nat>)
    requires states != [] && Elements(parts) == states[|states| - 1].live
    ensures Eligible(cfg, parts, level) <==> Ready(cfg, states[|states| - 1].live, level)
    ensures Eligible(cfg, parts, level) <==> Enabled(cfg, states, Merge(|states| - 1, level, outs))
  {
    AtLevelMembers(parts, level);
    var group := OfLevel(states[|states| - 1].live, level);
    assert forall p :: p in AtLevel(parts, level) <==> p in group;
    assert RunsOf(AtLevel(parts, level)) == Runs(group);
    assert group == {} <==> AtLevel(parts, level) == [] by {
      if AtLevel(parts, level) != [] { assert AtLevel(parts, level)[0] in group; }
    }
  }

  /** The planner finds nothing if and only if every level is below its trigger. */
  lemma QuietIffBelowTriggers(cfg: Config, live: set<LivePart>)
    requires cfg.l0Fanout >= 1 && cfg.fanout >= 1
    ensures (forall level :: !Ready(cfg, live, level))
            <==> forall level: Level :: |Runs(OfLevel(live, level))| < (if level == 0 then cfg.l0Fanout else cfg.fanout)
  {
    forall level ensures !Ready(cfg, live, level) <==> |Runs(OfLevel(live, level))| < Trigger(cfg, level) {
      if OfLevel(live, level) == {} { assert Runs(OfLevel(live, level)) == {}; }
    }
  }

  /** A partition left to the ladder quiesces: the merges are bounded by the counted runs
      there were, and where no merge can follow every level is below its trigger. */
  lemma Quiesces(cfg: Config, states: seq<Partition>, steps: seq<Step>, i: nat)
    requires cfg.l0Fanout >= 2 && cfg.fanout >= 2 && IsRun(cfg, states, steps) && i < |states|
    requires forall k :: i <= k < |steps| ==> steps[k].Merge?
    requires forall more: Step :: more.Merge? ==> !Enabled(cfg, states, more)
    ensures |steps| - i <= |Pairs(states[i].live)|
    ensures forall level: Level :: |Runs(OfLevel(states[|steps|].live, level))| < (if level == 0 then cfg.l0Fanout else cfg.fanout)
  {
    hide IsRun; hide Pairs; hide Runs;
    RunLength(cfg, states, steps);
    CompactionStops(cfg, states, steps, i, |steps|);
    QuietIffBelowTriggers(cfg, states[|steps|].live);
    forall level ensures !Ready(cfg, states[|steps|].live, level) {
      assert !Enabled(cfg, states, Merge(|steps|, level, {}));
    }
  }

  lemma RunLength(cfg: Config, states: seq<Partition>, steps: seq<Step>)
    requires IsRun(cfg, states, steps)
    ensures |states| == |steps| + 1
  {
  }

  // ---------------------------------------------------------------- counting commits instead

  /** The number of distinct commits drops in a merge if and only if enough of the group's
      commits have no live part elsewhere. */
  lemma CommitsDropIff(live: set<LivePart>, group: set<LivePart>, outs: set<nat>, level: Level, c: Run)
    requires group <= live && forall p :: p in live ==> p.run < c
    ensures |Runs(live - group + Written(outs, level, c))| < |Runs(live)|
            <==> |Runs(group) - Runs(live - group)| > (if outs == {} then 0 else 1)
  {
    var rest, gone := Runs(live - group), Runs(group) - Runs(live - group);
    assert Runs(live) == rest + gone by {
      forall x | x in Runs(live) ensures x in rest + gone {
        var p :| p in live && p.run == x;
        assert p in live - group || p in group;
      }
    }
    assert |Runs(live)| == |rest| + |gone|;
    var after := Runs(live - group + Written(outs, level, c));
    if outs == {} {
      assert Written(outs, level, c) == {};
      assert live - group + {} == live - group;
    } else {
      var id :| id in outs;
      assert LivePart(id, level, c) in Written(outs, level, c);
      assert after == rest + {c} by {
        forall x ensures x in after <==> x in rest + {c} {
          if x in after { var p :| p in live - group + Written(outs, level, c) && p.run == x; }
          if x == c { assert LivePart(id, level, c).run == x; }
        }
      }
      assert c !in rest;
    }
  }

  const Two := Config(2, 2)
  const A := Partition({LivePart(0, 0, 0)}, 1, map[0 := {0}], {0})
  const B := Partition({LivePart(0, 0, 0), LivePart(1, 0, 1)}, 2, map[0 := {0}, 1 := {1}], {0, 1})
  const C := Partition({LivePart(2, 1, 2)}, 3, map[0 := {0}, 1 := {1}, 2 := {0, 1}], {0, 1})
  const D := Partition({LivePart(2, 1, 2), LivePart(3, 0, 3)}, 4, C.sources[3 := {3}], {0, 1, 3})
  const E := Partition({LivePart(4, 1, 4), LivePart(5, 0, 4)}, 5, D.sources[4 := {0, 1, 3}], {0, 1, 3})
  const F := Partition({LivePart(4, 1, 4), LivePart(5, 0, 4), LivePart(6, 0, 5)}, 6, E.sources[5 := {5}], {0, 1, 3, 5})
  const G := Partition({LivePart(4, 1, 4), LivePart(7, 1, 6)}, 7, F.sources[6 := {0, 1, 3, 5}], {0, 1, 3, 5})

  const Erasure := Erase({LivePart(2, 1, 2), LivePart(3, 0, 3)}, map[LivePart(2, 1, 2) := 4, LivePart(3, 0, 3) := 5])

  lemma OneWritten(id: nat, level: Level, c: Run)
    ensures Written({id}, level, c) == {LivePart(id, level, c)}
  {
  }

  lemma TwoSources(sources: map<Run, set<Run>>, a: Run, b: Run)
    requires a in sources && b in sources
    ensures SourcesOf(sources, {a, b}) == sources[a] + sources[b]
  {
    forall x ensures x in SourcesOf(sources, {a, b}) <==> x in sources[a] + sources[b] {
      if x in sources[a] { assert a in {a, b}; }
      if x in sources[b] { assert b in {a, b}; }
    }
  }

  lemma FirstSteps()
    ensures Enabled(Two, [Empty], Ingest({0})) && Next(Two, [Empty], Ingest({0})) == A
    ensures Enabled(Two, [Empty, A], Ingest({1})) && Next(Two, [Empty, A], Ingest({1})) == B
  {
    OneWritten(0, 0, 0);
    OneWritten(1, 0, 1);
  }

  lemma MergeStep()
    ensures Enabled(Two, [Empty, A, B], Merge(2, 0, {2})) && Next(Two, [Empty, A, B], Merge(2, 0, {2})) == C
  {
    OneWritten(2, 1, 2);
    assert OfLevel(B.live, 0) == B.live;
    assert Runs(B.live) == {0, 1} by { assert LivePart(0, 0, 0) in B.live && LivePart(1, 0, 1) in B.live; }
    TwoSources(B.sources, 0, 1);
    assert B.sources[0] + B.sources[1] == {0, 1};
    hide SourcesOf; hide Runs; hide Written; hide OfLevel;
    assert B.live - B.live + {LivePart(2, 1, 2)} == C.live;
    assert B.sources[2 := {0, 1}] == C.sources;
  }

  lemma SecondSteps()
    ensures Enabled(Two, [Empty, A, B, C], Ingest({3})) && Next(Two, [Empty, A, B, C], Ingest({3})) == D
  {
    OneWritten(3, 0, 3);
  }

  lemma ErasureStep()
    ensures Enabled(Two, [Empty, A, B, C, D], Erasure) && Next(Two, [Empty, A, B, C, D], Erasure) == E
  {
    var p, q := LivePart(2, 1, 2), LivePart(3, 0, 3);
    assert Runs({p, q}) == {2, 3} by { assert p in {p, q} && q in {p, q}; }
    TwoSources(D.sources, 2, 3);
    assert D.sources[2] + D.sources[3] == {0, 1, 3};
    var kept := Erasure.kept;
    assert (set x | x in kept :: LivePart(kept[x], x.level, 4)) == E.live by {
      assert p in kept && q in kept;
    }
    hide SourcesOf; hide Runs;
    assert D.live - {p, q} + E.live == E.live;
    assert D.sources[4 := {0, 1, 3}] == E.sources;
  }

  lemma LastSteps()
    ensures Enabled(Two, [Empty, A, B, C, D, E], Ingest({6})) && Next(Two, [Empty, A, B, C, D, E], Ingest({6})) == F
    ensures Enabled(Two, [Empty, A, B, C, D, E, F], Merge(6, 0, {7})) && Next(Two, [Empty, A, B, C, D, E, F], Merge(6, 0, {7})) == G
  {
    OneWritten(6, 0, 5);
    OneWritten(7, 1, 6);
    var p, q := LivePart(5, 0, 4), LivePart(6, 0, 5);
    assert OfLevel(F.live, 0) == {p, q};
    assert Runs({p, q}) == {4, 5} by { assert p in {p, q} && q in {p, q}; }
    TwoSources(F.sources, 4, 5);
    assert F.live - {p, q} + {LivePart(7, 1, 6)} == G.live;
  }

  /** After an erasure a merge may leave as many distinct commits as there were: the
      measure has to be the runs as the planner counts them. */
  lemma CommitCountMayStay() returns (states: seq<Partition>, steps: seq<Step>)
    ensures IsRun(Two, states, steps) && |steps| == 7 && steps[6].Merge?
    ensures |Runs(states[7].live)| == |Runs(states[6].live)| && |Pairs(states[7].live)| < |Pairs(states[6].live)|
  {
    hide Next; hide Enabled; hide Pairs;
    states := [Empty, A, B, C, D, E, F, G];
    steps := [Ingest({0}), Ingest({1}), Merge(2, 0, {2}), Ingest({3}), Erasure, Ingest({6}), Merge(6, 0, {7})];
    FirstSteps(); MergeStep(); SecondSteps(); ErasureStep(); LastSteps();
    assert states[..1] == [Empty] && states[..2] == [Empty, A] && states[..3] == [Empty, A, B] && states[..4] == [Empty, A, B, C];
    assert states[..5] == [Empty, A, B, C, D] && states[..6] == [Empty, A, B, C, D, E] && states[..7] == [Empty, A, B, C, D, E, F];
    CompactionShrinks(Two, states, steps, 6);
    RunsOfF();
  }

  lemma RunsOfF()
    ensures Runs(F.live) == {4, 5} && Runs(G.live) == {4, 6}
  {
    assert LivePart(4, 1, 4) in F.live && LivePart(6, 0, 5) in F.live;
    assert LivePart(4, 1, 4) in G.live && LivePart(7, 1, 6) in G.live;
  }

  // ---------------------------------------------------------------- depth

  /** The least number of ingested runs behind a run of a level. */
  function Weight(cfg: Config, level: Level): nat {
    if level == 0 then 1 else if level == 1 then cfg.l0Fanout else cfg.fanout * Weight(cfg, level - 1)
  }

  lemma WeightGrows(cfg: Config, level: Level)
    ensures Weight(cfg, level + 1) == Trigger(cfg, level) * Weight(cfg, level)
  {
  }

  /** `l0Fanout * fanout^(level - 1)`. */
  function Power(base: nat, n: nat): nat {
    if n == 0 then 1 else base * Power(base, n - 1)
  }

  lemma {:induction false} WeightIsPower(cfg: Config, level: Level)
    requires level >= 1
    ensures Weight(cfg, level) == cfg.l0Fanout * Power(cfg.fanout, level - 1)
  {
    if level > 1 {
      WeightIsPower(cfg, level - 1);
      Swap(cfg.fanout, cfg.l0Fanout, Power(cfg.fanout, level - 2));
    }
  }

  lemma Swap(a: nat, b: nat, c: nat)
    ensures a * (b * c) == b * (a * c)
  {
  }

  predicate LadderOnly(steps: seq<Step>) {
    forall i :: 0 <= i < |steps| ==> steps[i].Ingest? || steps[i].Merge?
  }

  /** Live runs stand on disjoint sets of ingested runs, each large enough for its level. */
  predicate Heavy(cfg: Config, s: Partition) {
    && Known(s)
    && (forall r :: r in s.ingested ==> r < s.next)
    && (forall p :: p in s.live ==>
          p.run in s.sources && s.sources[p.run] <= s.ingested && |s.sources[p.run]| >= Weight(cfg, p.level))
    && (forall p, q :: p in s.live && q in s.live && p.run == q.run ==> p.level == q.level)
    && (forall p, q :: p in s.live && q in s.live && p.run != q.run ==> s.sources[p.run] !! s.sources[q.run])
  }

  predicate Disjoint(sources: map<Run, set<Run>>, runs: set<Run>) {
    && runs <= sources.Keys
    && forall r, q :: r in runs && q in runs && r != q ==> sources[r] !! sources[q]
  }

  /** One run of a group, and the others. */
  lemma SourcesSplit(sources: map<Run, set<Run>>, runs: set<Run>, r: Run)
    requires Disjoint(sources, runs) && r in runs
    ensures |SourcesOf(sources, runs)| == |sources[r]| + |SourcesOf(sources, runs - {r})|
  {
    var a, b := sources[r], SourcesOf(sources, runs - {r});
    assert SourcesOf(sources, runs) == a + b;
    assert a !! b;
    assert |a + b| == |a| + |b|;
  }

  /** Disjoint sources add up. */
  lemma {:induction false} SourcesAddUp(sources: map<Run, set<Run>>, runs: set<Run>, w: nat)
    requires Disjoint(sources, runs) && forall r :: r in runs ==> |sources[r]| >= w
    ensures |SourcesOf(sources, runs)| >= |runs| * w
  {
    hide SourcesOf;
    if runs != {} {
      var r :| r in runs;
      var rest := runs - {r};
      SourcesAddUp(sources, rest, w);
      SourcesSplit(sources, runs, r);
      assert |rest| == |runs| - 1;
      Times(|runs|, w);
    }
  }

  lemma Times(n: nat, w: nat)
    requires n > 0
    ensures n * w == (n - 1) * w + w
  {
  }

  lemma Scale(n: nat, m: nat, w: nat)
    requires n >= m
    ensures n * w >= m * w
  {
  }

  lemma GroupWeighs(cfg: Config, s: Partition, group: set<LivePart>, level: Level)
    requires Heavy(cfg, s) && group <= s.live && (forall p :: p in group ==> p.level == level)
    requires |Runs(group)| >= Trigger(cfg, level)
    ensures |SourcesOf(s.sources, Runs(group))| >= Weight(cfg, level + 1)
    ensures SourcesOf(s.sources, Runs(group)) <= s.ingested
  {
    hide Weight;
    assert Disjoint(s.sources, Runs(group));
    SourcesAddUp(s.sources, Runs(group), Weight(cfg, level));
    WeightGrows(cfg, level);
    Scale(|Runs(group)|, Trigger(cfg, level), Weight(cfg, level));
  }

  lemma IngestHeavy(cfg: Config, states: seq<Partition>, outs: set<nat>)
    requires states != [] && Heavy(cfg, states[|states| - 1]) && Enabled(cfg, states, Ingest(outs))
    ensures Heavy(cfg, Next(cfg, states, Ingest(outs)))
  {
    hide Weight;
    LeafWeight(cfg);
  }

  lemma LeafWeight(cfg: Config)
    ensures Weight(cfg, 0) == 1
  {
  }

  /** A part left by a merge stands on other ingested runs than the group. */
  lemma ApartFromGroup(cfg: Config, s: Partition, group: set<LivePart>, p: LivePart)
    requires Heavy(cfg, s) && Whole(s.live, group) && p in s.live - group
    ensures s.sources[p.run] !! SourcesOf(s.sources, Runs(group)) && p.run !in Runs(group)
  {
    forall q | q in group ensures q.run != p.run {
      assert (p.level, p.run) in Pairs(s.live - group) && (q.level, q.run) in Pairs(group);
    }
  }

  lemma MergeHeavy(cfg: Config, states: seq<Partition>, step: Step)
    requires states != [] && Heavy(cfg, states[|states| - 1]) && step.Merge? && Enabled(cfg, states, step)
    requires Whole(states[|states| - 1].live, Group(states, step))
    ensures Heavy(cfg, Next(cfg, states, step))
  {
    hide Weight; hide SourcesOf; hide Runs; hide Whole;
    var s, s', group := states[|states| - 1], Next(cfg, states, step), Group(states, step);
    GroupWeighs(cfg, s, group, step.level);
    forall p | p in s.live - group ensures s.sources[p.run] !! SourcesOf(s.sources, Runs(group)) { ApartFromGroup(cfg, s, group, p); }
  }

  lemma {:induction false} RunHeavy(cfg: Config, states: seq<Partition>, steps: seq<Step>, i: nat)
    requires IsRun(cfg, states, steps) && LadderOnly(steps) && i < |states|
    ensures Heavy(cfg, states[i])
  {
    hide Next; hide Enabled; hide Heavy; hide Whole;
    if i == 0 {
      EmptyHeavy(cfg);
    } else {
      RunHeavy(cfg, states, steps, i - 1);
      var front := states[..i];
      assert front[|front| - 1] == states[i - 1];
      if steps[i - 1].Ingest? {
        IngestHeavy(cfg, front, steps[i - 1].outs);
      } else {
        PlansTakeWholeRuns(cfg, states, steps, i - 1);
        MergeHeavy(cfg, front, steps[i - 1]);
      }
    }
  }

  lemma EmptyHeavy(cfg: Config)
    ensures Heavy(cfg, Empty)
  {
  }

  /** With ladder merges and ingest only, a live part of level l >= 1 stands on at least
      `l0Fanout * fanout^(l-1)` distinct ingested runs: depth is logarithmic. */
  lemma DepthIsLogarithmic(cfg: Config, states: seq<Partition>, steps: seq<Step>, i: nat, p: LivePart)
    requires IsRun(cfg, states, steps) && LadderOnly(steps) && i < |states| && p in states[i].live && p.level >= 1
    ensures p.run in states[i].sources
    ensures |states[i].ingested| >= |states[i].sources[p.run]| >= cfg.l0Fanout * Power(cfg.fanout, p.level - 1)
  {
    hide Next; hide Enabled; hide IsRun;
    RunHeavy(cfg, states, steps, i);
    WeightIsPower(cfg, p.level);
    SubsetCardinality(states[i].sources[p.run], states[i].ingested);
  }
}
