/** The configurations a node keeps track of (`ConfigTracker` in
    crates/brokkr-raft/src/node.rs): a base and the entries after it stand for the
    latest configuration of the whole log, through truncation and compaction. */
module RaftConfigs {
  import opened Common
  import opened Quorum
  import opened RaftCluster

  type Tracked = (nat, ClusterConfig)

  /** The configuration entries of `log` after index `base`. */
  function ConfigsFrom(log: Log, base: nat): seq<Tracked> {
    if |log| <= base then []
    else
      var e := log[|log| - 1];
      ConfigsFrom(log[..|log| - 1], base) + if e.payload.Config? then [(|log|, e.payload.config)] else []
  }

  function Before(s: seq<Tracked>, index: nat): seq<Tracked> {
    if s == [] then [] else Before(s[..|s| - 1], index) + if s[|s| - 1].0 < index then [s[|s| - 1]] else []
  }

  function After(s: seq<Tracked>, index: nat): seq<Tracked> {
    if s == [] then [] else After(s[..|s| - 1], index) + if s[|s| - 1].0 > index then [s[|s| - 1]] else []
  }

  // ----- what the entries say about the log -----

  lemma {:induction false} IndexesWithin(log: Log, base: nat)
    ensures forall k :: 0 <= k < |ConfigsFrom(log, base)| ==> base < ConfigsFrom(log, base)[k].0 <= |log|
  {
    if |log| > base {
      IndexesWithin(log[..|log| - 1], base);
    }
  }

  /** The last entry is the configuration in force, or there is none after the base. */
  lemma {:induction false} LastIsActive(boot: ClusterConfig, log: Log, base: nat)
    requires base <= |log|
    ensures ConfigsFrom(log, base) == [] ==> LastCfg(log) <= base && Cfg(boot, log) == Cfg(boot, log[..base])
    ensures ConfigsFrom(log, base) != [] ==>
              var last := ConfigsFrom(log, base)[|ConfigsFrom(log, base)| - 1];
              last.0 == LastCfg(log) > base && last.1 == Cfg(boot, log)
  {
    if |log| == base {
      assert log[..base] == log;
    } else {
      var rest := log[..|log| - 1];
      LastIsActive(boot, rest, base);
      if !log[|log| - 1].payload.Config? {
        assert ConfigsFrom(rest, base) + [] == ConfigsFrom(rest, base);
        assert LastCfg(log) == LastCfg(rest);
        assert rest[..base] == log[..base];
      }
    }
  }

  lemma {:induction false} AllBefore(s: seq<Tracked>, index: nat)
    requires forall k :: 0 <= k < |s| ==> s[k].0 < index
    ensures Before(s, index) == s
  {
    if s != [] {
      AllBefore(s[..|s| - 1], index);
      assert s == s[..|s| - 1] + [s[|s| - 1]];
    }
  }

  /** The last entry before `index`, once the later ones are skipped. */
  lemma {:induction false} LastBefore(s: seq<Tracked>, k: nat, index: nat)
    requires k <= |s| && (forall j :: k <= j < |s| ==> s[j].0 >= index) && (k > 0 ==> s[k - 1].0 < index)
    ensures k == 0 ==> Before(s, index) == []
    ensures k > 0 ==> Before(s, index) != [] && Before(s, index)[|Before(s, index)| - 1] == s[k - 1]
  {
    if k < |s| {
      LastBefore(s[..|s| - 1], k, index);
      assert Before(s[..|s| - 1], index) + [] == Before(s[..|s| - 1], index);
    }
  }

  /** Cutting the log cuts the entries. */
  lemma {:induction false} TruncateConfigs(log: Log, base: nat, from: nat)
    requires base < from
    ensures Before(ConfigsFrom(log, base), from) == ConfigsFrom(if from <= |log| then log[..from - 1] else log, base)
  {
    if |log| < from {
      IndexesWithin(log, base);
      AllBefore(ConfigsFrom(log, base), from);
    } else {
      var rest, e := log[..|log| - 1], log[|log| - 1];
      TruncateConfigs(rest, base, from);
      var before := ConfigsFrom(rest, base);
      if e.payload.Config? {
        assert (before + [(|log|, e.payload.config)])[..|before|] == before;
        assert Before(before, from) + [] == Before(before, from);
      } else {
        assert before + [] == before;
      }
      if |rest| < from {
        assert rest == log[..from - 1];
      } else {
        assert rest[..from - 1] == log[..from - 1];
      }
    }
  }

  lemma {:induction false} PrefixConfigs(log: Log, base: nat, index: nat)
    requires base <= index <= |log|
    ensures Before(ConfigsFrom(log, base), index + 1) == ConfigsFrom(log[..index], base)
  {
    TruncateConfigs(log, base, index + 1);
    assert log[..|log|] == log;
  }

  /** The entry found by skipping the later ones is the configuration of the shorter log. */
  lemma {:induction false} ConfigOfPrefix(boot: ClusterConfig, cut: Log, base: nat, all: seq<Tracked>, k: nat)
    requires base <= |cut| && k <= |all| && Before(all, |cut| + 1) == ConfigsFrom(cut, base)
    requires (forall j :: k <= j < |all| ==> all[j].0 > |cut|) && (k > 0 ==> all[k - 1].0 <= |cut|)
    ensures Cfg(boot, cut) == if k == 0 then Cfg(boot, cut[..base]) else all[k - 1].1
  {
    LastIsActive(boot, cut, base);
    LastBefore(all, k, |cut| + 1);
  }

  /** A later base leaves the entries after it. */
  lemma {:induction false} CompactConfigs(log: Log, base: nat, to: nat)
    requires base <= to
    ensures After(ConfigsFrom(log, base), to) == ConfigsFrom(log, to)
  {
    if |log| > base {
      var rest, e := log[..|log| - 1], log[|log| - 1];
      CompactConfigs(rest, base, to);
      var before := ConfigsFrom(rest, base);
      if e.payload.Config? {
        assert (before + [(|log|, e.payload.config)])[..|before|] == before;
        assert |log| <= to ==> |rest| <= to;
        assert After(before, to) + [] == After(before, to);
      } else {
        assert before + [] == before && ConfigsFrom(rest, to) + [] == ConfigsFrom(rest, to);
      }
    }
  }

  /** Only the entries after the base matter. */
  lemma {:induction false} SameTail(log: Log, other: Log, base: nat)
    requires |log| == |other| && forall k :: base <= k < |log| ==> log[k] == other[k]
    ensures ConfigsFrom(log, base) == ConfigsFrom(other, base)
  {
    if |log| > base {
      SameTail(log[..|log| - 1], other[..|other| - 1], base);
    }
  }

  class ConfigTracker {
    var base: ClusterConfig
    var baseIndex: nat
    var inLog: seq<Tracked>
    ghost const boot: ClusterConfig
    /** The whole log, snapshot included. */
    ghost var log: Log

    ghost predicate Valid()
      reads this
    {
      baseIndex <= |log| && base == Cfg(boot, log[..baseIndex]) && inLog == ConfigsFrom(log, baseIndex)
    }

    /** At start-up: the snapshot's configuration, or the bootstrap one. */
    constructor (base: ClusterConfig, baseIndex: nat, ghost boot: ClusterConfig, ghost prefix: Log)
      requires |prefix| == baseIndex && base == Cfg(boot, prefix)
      ensures Valid() && log == prefix && this.boot == boot && this.baseIndex == baseIndex
    {
      this.base, this.baseIndex, inLog := base, baseIndex, [];
      this.boot, log := boot, prefix;
      new;
      assert log[..baseIndex] == log;
    }

    /** The configuration in force is the latest in the log. */
    method Active() returns (c: ClusterConfig)
      requires Valid()
      ensures c == Cfg(boot, log)
    {
      LastIsActive(boot, log, baseIndex);
      c := if inLog == [] then base else inLog[|inLog| - 1].1;
    }

    /** The index of the latest configuration entry, or the base's if that is
        later: no commit index at or after the base tells them apart. */
    method LatestIndex() returns (i: nat)
      requires Valid()
      ensures i == Max(LastCfg(log), baseIndex)
    {
      LastIsActive(boot, log, baseIndex);
      i := if inLog == [] then baseIndex else inLog[|inLog| - 1].0;
    }

    /** The configuration in force when the log ended at `index`. */
    method ConfigAt(index: nat) returns (c: ClusterConfig)
      requires Valid() && baseIndex <= index <= |log|
      ensures c == Cfg(boot, log[..index])
    {
      var k := |inLog|;
      while k > 0 && inLog[k - 1].0 > index
        invariant 0 <= k <= |inLog| && forall j :: k <= j < |inLog| ==> inLog[j].0 > index
      {
        k := k - 1;
      }
      PrefixConfigs(log, baseIndex, index);
      ConfigOfPrefix(boot, log[..index], baseIndex, inLog, k);
      assert log[..index][..baseIndex] == log[..baseIndex];
      c := if k == 0 then base else inLog[k - 1].1;
    }

    /** A configuration entry appended at `index`, over whatever was there. */
    method OnAppend(index: nat, config: ClusterConfig, ghost term: nat)
      requires Valid() && baseIndex < index <= |log| + 1
      modifies this`inLog, this`log
      ensures Valid() && log == old(log)[..index - 1] + [Entry(term, Config(config))]
    {
      OnTruncate(index);
      assert log == old(log)[..index - 1];
      ghost var now := log + [Entry(term, Config(config))];
      assert now[..|log|] == log && now[..baseIndex] == log[..baseIndex];
      inLog := inLog + [(index, config)];
      log := now;
    }

    /** Truncation rolls the configuration back. */
    method OnTruncate(from: nat)
      requires Valid() && from > baseIndex
      modifies this`inLog, this`log
      ensures Valid() && log == if from <= |old(log)| then old(log)[..from - 1] else old(log)
    {
      TruncateConfigs(log, baseIndex, from);
      inLog := Before(inLog, from);
      ghost var now := if from <= |log| then log[..from - 1] else log;
      assert now[..baseIndex] == log[..baseIndex];
      log := now;
    }

    /** Entries other than configurations leave the tracker alone. */
    method NoteAppended(entries: Log, first: nat)
      requires Valid() && first == |log| + 1
      modifies this`inLog, this`log
      ensures Valid() && log == old(log) + entries
    {
      for i := 0 to |entries|
        invariant Valid() && log == old(log) + entries[..i]
      {
        assert entries[..i + 1] == entries[..i] + [entries[i]];
        NoteOne(entries[i], first + i);
      }
      assert entries[..|entries|] == entries;
    }

    method NoteOne(e: Entry, index: nat)
      requires Valid() && index == |log| + 1
      modifies this`inLog, this`log
      ensures Valid() && log == old(log) + [e]
    {
      if e.payload.Config? {
        assert log[..|log|] == log;
        OnAppend(index, e.payload.config, e.term);
      } else {
        ghost var now := log + [e];
        assert now[..|log|] == log && now[..baseIndex] == log[..baseIndex] && inLog + [] == inLog;
        log := now;
      }
    }

    /** Compaction folds the covered entries into the base. */
    method OnCompact(to: nat)
      requires Valid() && baseIndex <= to <= |log|
      modifies this`base, this`baseIndex, this`inLog
      ensures Valid() && baseIndex == to
    {
      var c := ConfigAt(to);
      CompactConfigs(log, baseIndex, to);
      base, baseIndex, inLog := c, to, After(inLog, to);
    }

    /** A snapshot from the leader brings its configuration; the tail kept after
        it, if any, keeps its entries. */
    method OnInstallSnapshot(config: ClusterConfig, index: nat, wiped: bool, ghost now: Log)
      requires Valid() && baseIndex <= index <= |now| && config == Cfg(boot, now[..index])
      requires if wiped then |now| == index else |now| == |log| && forall k :: index <= k < |log| ==> now[k] == log[k]
      modifies this`base, this`baseIndex, this`inLog, this`log
      ensures config.voters != {} ==> Valid() && log == now
      ensures baseIndex == index && inLog == ConfigsFrom(now, index)
    {
      if config.voters != {} {
        base := config;
      }
      if wiped {
        inLog := [];
      } else {
        CompactConfigs(log, baseIndex, index);
        SameTail(now, log, index);
        inLog := After(inLog, index);
      }
      baseIndex, log := index, now;
    }
  }
}
