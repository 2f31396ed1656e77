/** One site as the controllers reach it: the durable journal and the ports to the outside. */
module FirstTransitionPorts {
  import opened Outcomes
  import opened Roles
  import opened FirstTransitionJournal
  import opened FirstTransitionTheorems
  import opened FirstTransitionSite
  import opened FirstTransitionInvariant

  class Site {
    const terms: Terms
    /** In a steady site the process is not killed. */
    const steady: bool
    /** The journal this process found. */
    ghost const found: seq<Event>
    var journal: seq<Event>
    var world: World
    /** What the process went through since the last event it wrote, and what it had when it wrote each. */
    ghost var course: Course
    ghost var written: seq<Course>
    ghost var trace: seq<Emission>

    /** A controller process over what an earlier one left. */
    constructor (terms: Terms, steady: bool, journal: seq<Event>, ghost written: seq<Course>, world: World,
                 ghost trace: seq<Emission>)
      ensures this.terms == terms && this.steady == steady
      ensures this.journal == journal && this.world == world && this.trace == trace
      ensures this.written == written && this.course == [world] && this.found == journal
    {
      this.terms, this.steady, this.journal, this.world, this.trace := terms, steady, journal, world, trace;
      this.written, this.course, this.found := written, [world], journal;
    }

    function View(): View
      reads this`journal
    {
      ViewOf(journal)
    }

    ghost predicate Inv()
      reads this
    {
      SiteInv(terms, journal, world, trace) && Witnessed(terms, journal, written)
      && Backed(terms.config, journal, written, trace) && Standing(course, world) && found <= journal
    }

    // -- the journal ---------------------------------------------------------------

    /** One durable append. It may be refused with nothing written; a process killed during it left the record
        there or not. A torn record refuses every later opening (module JournalFile), so there is no later run. */
    method Append(e: Event) returns (o: Outcome<Code>)
      modifies `course, `written, `journal
      ensures (terms.faithful ==> !o.Refused?) && (steady ==> !o.Killed?)
      ensures o.Refused? ==> o.code == JournalWrite && journal == old(journal)
      ensures journal == old(journal) + [e] || (!o.Pass? && journal == old(journal))
      ensures o.Pass? ==> written == old(written) + [old(course)]
      ensures journal != old(journal) ==> View() == Record(old(View()), |old(journal)| + 1, e)
      ensures (old(Inv()) && Justified(terms.config, old(View()), e) && Fits(terms, old(View()), world, e)
               && Shown(terms.config, old(View()), world, old(course), e)
               && Backs(terms.config, trace, old(journal), old(course), e)) ==> Inv()
    {
      hide SiteInv, Witnessed, Backed, Backs, Justified, Fits, Shown, ViewOf, Record;
      o := *;
      if (o.Killed? && steady) || (o.Refused? && terms.faithful) { o := Pass; }
      if o.Refused? { return Refused(JournalWrite); }
      var lost := *;
      if o.Pass? || !lost {
        ViewAppend(journal, e);
        if Inv() && Justified(terms.config, View(), e) && Fits(terms, View(), world, e)
           && Shown(terms.config, View(), world, course, e) && Backs(terms.config, trace, journal, course, e) {
          AppendKeeps(terms, journal, world, trace, e);
          WitnessedAppend(terms, journal, written, course, e);
          BackedAppend(terms.config, journal, written, trace, course, e);
        }
        written, course := written + [course], [world];
        journal := journal + [e];
      }
    }

    // -- observations ----------------------------------------------------------------

    /** Whatever happens around the controller. */
    method Environment()
      modifies `course, `world
      ensures Moves(terms, old(world), world)
      ensures old(Inv()) ==> Inv()
      ensures course == old(course) + [world]
    {
      hide Witnessed, Backed;
      var next: World := *;
      if Moves(terms, world, next) {
        ghost var before := world;
        world := next;
        if SiteInv(terms, journal, before, trace) {
          MovesKeep(terms, journal, before, world, trace);
        }
      }
      course := course + [world];
    }

    /** The outcome of a call that only reads: it may fail unless the site is faithful. */
    method Reading() returns (o: Outcome<Code>)
      ensures terms.faithful ==> !o.Refused?
      ensures o.Refused? ==> o.code == PortFailed
      ensures steady ==> !o.Killed?
    {
      o := *;
      if o.Refused? { o := Refused(PortFailed); }
      if (terms.faithful && o.Refused?) || (steady && o.Killed?) {
        o := Pass;
      }
    }

    method Observe() returns (o: Outcome<Code>, view: World)
      modifies `course, `world
      ensures course == old(course) + [world]
      ensures Moves(terms, old(world), world) && view == world
      ensures old(Inv()) ==> Inv()
      ensures terms.faithful ==> !o.Refused?
      ensures o.Refused? ==> o.code == PortFailed
      ensures steady ==> !o.Killed?
    {
      Environment();
      o := Reading();
      view := world;
    }

    // -- effects ------------------------------------------------------------------------

    /** A guarded effect is sent: it may be lost, be handled in part, take place and still be reported
        as failed, or take place and pass. */
    method Effect(op: Op, view: World, ghost proof: Option<Database>) returns (o: Outcome<Code>, ghost sent: Emission)
      modifies `course, `world, `trace
      ensures Standing(course, world)
      ensures terms.faithful ==> !o.Refused?
      ensures steady ==> !o.Killed?
      ensures trace == old(trace) + [sent]
      ensures sent.op == op && sent.past == journal && sent.view == view && sent.proof == proof
      ensures Sent(terms, old(world), sent, world)
      ensures terms.faithful && o.Pass? ==> world == Deliver(terms.config, op, old(world))
    {
      hide SiteInv, Witnessed, Backed, Deliver;
      if !terms.adjacent {
        Environment();
      }
      ghost var met := world;
      var half := *;
      o := Reading();
      if o.Pass? && terms.faithful {
        world := Deliver(terms.config, op, world);
      } else if Reached(terms.config, op, world, half) {
        world := half;
      }
      sent := Emission(op, journal, view, proof, met,
                       op.StartService? && !met.services.At(op.role).running && world != met, None);
      trace := trace + [sent];
      course := course + [world];
    }

    /** An effect whose guard judged the observation the site still shows, when the two are adjacent. */
    method Guarded(op: Op, view: World, ghost proof: Option<Database>) returns (o: Outcome<Code>)
      requires Inv() && !op.ApplyMigration?
      requires terms.adjacent ==> view == world
      requires Lawful(terms.config, Emission(op, journal, view, proof, world, false, None)) && Recorded(View(), op)
      requires forall e <- trace :: !Exclusive(e.op, op)
      modifies `course, `world, `trace
      ensures Inv()
      ensures terms.faithful ==> !o.Refused?
      ensures steady ==> !o.Killed?
      ensures |trace| == |old(trace)| + 1 && trace[..|old(trace)|] == old(trace)
      ensures var e := trace[|old(trace)|]; e.op == op && e.past == journal && e.view == view
      ensures terms.faithful ==> Reached(terms.config, op, old(world), world)
      ensures terms.faithful && o.Pass? ==> world == Deliver(terms.config, op, old(world))
    {
      ghost var w, tr := world, trace;
      ghost var sent;
      o, sent := Effect(op, view, proof);
      assert Sent(terms, w, sent, world);
      assert terms.faithful ==> Reached(terms.config, op, w, world);
      assert Lawful(terms.config, sent) by {
        LawfulRests(terms.config, Emission(op, journal, view, proof, w, false, None), sent);
      }
      hide Sent, Lawful, Recorded, Exclusive, SiteInv, Witnessed, Backed;
      EffectKeeps(terms, journal, w, tr, sent, world);
      BackedEmit(terms.config, journal, written, tr, sent);
    }

    /** The fresh read-only database proof a resume effect needs, made in the request that sends it. */
    method ProveLedger() returns (o: Outcome<Code>, proof: Database)
      modifies `course, `world
      ensures Moves(terms, old(world), world) && (terms.adjacent ==> world == old(world))
      ensures old(Inv()) ==> Inv()
      ensures o.Pass? ==> DdlFree(terms.config, proof)
      ensures terms.faithful && DdlFree(terms.config, old(world).db) ==> !o.Refused?
      ensures steady ==> !o.Killed?
    {
      if !terms.adjacent {
        Environment();
      }
      o := Reading();
      proof := world.db;
      if o.Pass? {
        o := Require(DdlFree(terms.config, proof), LedgerProofRefused);
      }
    }

    /** Waits for a signalled container; a faithful one that is still running never stops. */
    method AwaitStopped(r: Role) returns (o: Outcome<Code>)
      modifies `course, `world
      ensures Moves(terms, old(world), world)
      ensures old(Inv()) ==> Inv()
      ensures terms.faithful && o.Refused? ==> world.services.At(r).running
      ensures terms.faithful && world.services.At(r).running ==> !o.Pass?
      ensures steady ==> !o.Killed?
    {
      Environment();
      o := Reading();
      if terms.faithful && o.Pass? && world.services.At(r).running {
        o := Refused(WaitTimeout);
      }
    }

    /** The executor applies one migration: an exit code, or None when it timed out and may still
        commit. An executor that exited commits no more. */
    method RunMigration(i: nat, ghost before: Database)
      returns (o: Outcome<Code>, code: Option<int>, ghost sent: Emission)
      requires i < |terms.config.plan.pending|
      modifies `course, `world, `trace
      ensures Standing(course, world)
      ensures terms.faithful ==> !o.Refused?
      ensures o.Refused? ==> o.code == PortFailed
      ensures steady ==> !o.Killed?
      ensures trace == old(trace) + [sent]
      ensures sent.op == ApplyMigration(i) && sent.past == journal && sent.proof == Some(before)
      ensures o.Pass? ==> sent.exit == code
      ensures Sent(terms, old(world), sent, world)
      ensures terms.soleWriter && o.Pass? && code.Some? ==>
                world.applying == None || world.applying == old(world).applying
      ensures terms.faithful && o.Pass?
              ==> code == Some(0) && world == Deliver(terms.config, ApplyMigration(i), old(world))
    {
      ghost var kept := world.applying;
      if !terms.adjacent {
        Environment();
      }
      ghost var met := world;
      var half := *;
      o := Reading();
      code := *;
      if o.Pass? && terms.faithful {
        code := Some(0);
        world := Deliver(terms.config, ApplyMigration(i), world);
      } else if Reached(terms.config, ApplyMigration(i), world, half)
                && (o.Pass? && code.Some? ==> half.applying == None || half.applying == world.applying) {
        world := half;
      }
      sent := Emission(ApplyMigration(i), journal, met, Some(before), met, false, if o.Pass? then code else None);
      trace := trace + [sent];
      course := course + [world];
    }

    /** The backup provider answers a request; its receipt is checked by the caller. */
    method ProvideBackup(q: Request) returns (o: Outcome<Code>, receipt: Receipt)
      ensures terms.faithful ==> !o.Refused? && ValidReceipt(terms.config, receipt)
                                 && receipt.request == Some(q) && receipt.id.Some?
      ensures steady ==> !o.Killed?
    {
      o := Reading();
      receipt := *;
      if terms.faithful {
        var c := terms.config;
        var p := c.plan;
        receipt := Receipt(p, c.identity, p.baseline, c.catalog, true, Some(q), Some(0),
                           CloneRehearsal(true, c.identity + 1, true, |p.pending|, |p.baseline| + |p.pending|,
                                          p.ConcurrentCount(|p.pending|), p.pending));
      }
    }
  }

  /** Lawfulness speaks of the journal, the judged observation and the proof, not of what was met. */
  lemma LawfulRests(c: Config, m: Emission, n: Emission)
    requires Lawful(c, m) && n.op == m.op && n.past == m.past && n.view == m.view && n.proof == m.proof
    ensures Lawful(c, n)
  {
  }
}
