/** The server state as the object behind its locks: the table of runtimes and the registry of
    attachments.  Every method is one holder of the lifecycle lock and is proved against the
    functions of module RuntimeModel; the answers of the outside world are parameters. */
module AppServer {
  import opened Options
  import opened RegistryModel
  import opened RuntimeModel
  import opened Attachments

  class AppState {
    const config: AppConfig
    const attachments: AttachmentRegistry
    var runtimes: map<Path, RuntimeSlot>
    var nextInstance: nat

    ghost function Value(): (a: App)
      reads this, attachments
    {
      App(runtimes, attachments.Value(), nextInstance, Nobody)
    }

    ghost predicate Valid()
      reads this, attachments
    {
      attachments.Valid() && attachments.config == config.registry
    }

    constructor (maxRuntimes: nat, maxAttachments: nat, idleTtl: nat)
      ensures Valid() && fresh(attachments)
      ensures config == NewAppConfig(maxRuntimes, maxAttachments, idleTtl) && Value() == NEW_APP
    {
      config := NewAppConfig(maxRuntimes, maxAttachments, idleTtl);
      var registry := new AttachmentRegistry(maxAttachments, idleTtl);
      attachments := registry;
      runtimes, nextInstance := map[], 0;
    }

    method PruneUnreferencedRuntimesLocked(now: int, busy: set<Path>)
      requires Valid()
      modifies this`runtimes, attachments
      ensures Valid() && Value() == PruneRuntimes(config, old(Value()), now, busy)
    {
      attachments.PruneExpiredAt(now);
      var referenced := attachments.CollectRuntimeKeys();
      var table := runtimes;
      var todo := table.Keys;
      var keepActive: set<Path> := {};
      while todo != {}
        invariant todo <= table.Keys
        invariant forall k | k in table ::
          k in keepActive <==> k !in todo && k !in referenced && table[k].ready && k in busy
        decreases todo
      {
        var key :| key in todo;
        if key !in referenced && table[key].ready && key in busy {
          keepActive := keepActive + {key};
        }
        todo := todo - {key};
      }
      runtimes := map k | k in runtimes && (k in referenced || k in keepActive) :: runtimes[k];
    }

    method AttachCwd(env: AttachEnv) returns (result: AttachResult)
      requires Valid()
      modifies this, attachments
      ensures Valid() && (Value(), result) == Attach(config, old(Value()), env)
    {
      if !env.absolute { return NotAbsolute; }
      if env.canonical.None? { return UnusablePath; }
      var cwd := env.canonical.value;
      PruneUnreferencedRuntimesLocked(env.prunedAt, env.busy);
      ghost var begun := Value().(attaching := Pruned(cwd));
      var slot;
      if cwd in runtimes {
        slot := runtimes[cwd];
      } else {
        if |runtimes| >= config.maxRuntimes { return RuntimeLimit; }
        slot := RuntimeSlot(nextInstance, false);
        runtimes := runtimes[cwd := slot];
        nextInstance := nextInstance + 1;
      }
      assert Reserve(config, begun) == Value().(attaching := Reserved(cwd, slot.instance));
      result := AttachReservedSlot(cwd, slot, env);
    }

    method AttachReservedSlot(cwd: Path, slot: RuntimeSlot, env: AttachEnv) returns (result: AttachResult)
      requires Valid() && cwd in runtimes && runtimes[cwd] == slot
      modifies this`runtimes, attachments
      ensures Valid()
      ensures (Value(), result) == AttachReserved(config, old(Value()).(attaching := Reserved(cwd, slot.instance)), env)
    {
      if !slot.ready {
        if !env.starts {
          if cwd in runtimes && runtimes[cwd].instance == slot.instance { runtimes := runtimes - {cwd}; }
          return StartFailed;
        }
        runtimes := runtimes[cwd := RuntimeSlot(slot.instance, true)];
      }
      result := AttachStartedSlot(cwd, slot.instance, env);
    }

    method AttachStartedSlot(cwd: Path, instance: nat, env: AttachEnv) returns (result: AttachResult)
      requires Valid()
      modifies this`runtimes, attachments
      ensures Valid()
      ensures (Value(), result) == AttachStarted(config, old(Value()).(attaching := Initialised(cwd, instance)), env)
    {
      if !env.describes {
        PruneUnreferencedRuntimesLocked(env.cleanedAt, env.busyAfter);
        return DescribeFailed;
      }
      var inserted := attachments.InsertEntry(env.id, Home(cwd, instance), env.registeredAt);
      if inserted == Inserted { return Attached(env.id); }
      PruneUnreferencedRuntimesLocked(env.cleanedAt, env.busyAfter);
      return if inserted == Capacity then AttachmentLimit else DuplicateId;
    }

    /** A handle to the attachment, after which unreferenced runtimes are dropped. */
    method AttachedAttachment(id: AttachmentId, now: int, prunedAt: int, busy: set<Path>) returns (handle: Option<nat>)
      requires Valid()
      modifies this`runtimes, attachments
      ensures Valid()
      ensures var (r, granted) := Lookup(config.registry, old(attachments.Value()), id, now);
              handle == granted && Value() == PruneRuntimes(config, old(Value()).(registry := r), prunedAt, busy)
    {
      handle := attachments.Attachment(id, now);
      PruneUnreferencedRuntimesLocked(prunedAt, busy);
    }

    /** The first half of a detach, before the drain wait of LeaseProtocol. */
    method DetachAttachment(id: AttachmentId) returns (revocation: Option<nat>)
      requires Valid()
      modifies attachments
      ensures Valid()
      ensures var (r, cell) := Detach(old(attachments.Value()), id);
              revocation == cell && Value() == old(Value()).(registry := r)
    {
      revocation := attachments.DetachAttachment(id);
    }
  }
}
