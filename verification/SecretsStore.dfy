/**
The secrets file, the model entry beside it, and the calls that change them in
place, one step of the world at a time.  Every method is the run of `SecretRuns`
that the world dictates; the laws proved there are the laws of these methods.
*/
module SecretsStore {
  import opened Wrappers
  import opened Secrets
  import opened SecretRuns

  class SecretsStore {
    const world: World
    var now: nat
    var file: Content
    var temps: nat
    var modelSaved: bool
    var guardHeld: bool
    /** The changes calls have made to the file. */
    ghost var changes: seq<Change>

    constructor (world: World, file: Content, modelSaved: bool)
      ensures this.world == world && !guardHeld && View() == Store(0, file, modelSaved, 0, [])
    {
      this.world, this.file, this.modelSaved := world, file, modelSaved;
      now, temps, guardHeld := 0, 0, false;
      changes := [];
    }

    ghost function View(): Store
      reads this
    {
      Store(now, file, modelSaved, temps, changes)
    }

    method Around() returns (fault: Fault)
      modifies this`now, this`file, this`modelSaved
      ensures View() == Pass(world, old(View()), guardHeld) && fault == world(old(now)).fault
    {
      var h := world(now);
      if h.write.Some? { file := h.write.value; }
      if h.model.Some? && !guardHeld { modelSaved := h.model.value; }
      now := now + 1;
      assert ModelAfter(world, old(modelSaved), old(now), old(now)) == old(modelSaved);
      return h.fault;
    }

    method Replace(content: Content)
      modifies this`file, this`changes
      ensures View() == Put(old(View()), content)
    {
      changes := changes + [Change(now, file, content)];
      file := content;
    }

    method CompareAndReplace(content: Content, expected: Content) returns (fault: Fault)
      modifies `now, `file, `modelSaved, `temps, `changes
      ensures (View(), fault) == Swap(world, old(View()), guardHeld, content, expected)
    {
      temps := temps + 1;
      fault := Around();
      if fault == Crash { return; }
      temps := temps - 1;
      if fault != NoFault { return; }
      if file != expected { return Failure; }
      Replace(content);
      fault := AfterReplacing();
    }

    /** An interrupt or a crash may come right after a replacement. */
    method AfterReplacing() returns (fault: Fault)
      modifies `now, `file, `modelSaved
      ensures (View(), fault) == Land(world, old(View()), guardHeld)
    {
      if Sudden(world(now).fault) {
        fault := Around();
      } else {
        fault := NoFault;
      }
    }

    method WriteSecretEnv(name: string, value: string, createOnly: bool) returns (r: WriteResult)
      requires !guardHeld
      modifies `now, `file, `modelSaved, `temps, `changes
      ensures (View(), r) == Write(world, old(View()), name, value, createOnly)
    {
      if !ValidName(name) || value == "" { return Raised(Failure); }
      var fault := Around();
      if fault != NoFault { return Raised(fault); }
      var expected := file;
      fault := Around();
      if fault != NoFault { return Raised(fault); }
      var prepared := Prepare(file, name, value, createOnly);
      if prepared.Err? { return Raised(Failure); }
      fault := CompareAndReplace(Some(prepared.value), expected);
      if fault != NoFault { return Raised(fault); }
      return Written(prepared.value);
    }

    method RemoveKey(original: Content, owned: Bytes) returns (fault: Fault)
      modifies `now, `file, `modelSaved, `temps, `changes
      ensures (View(), fault) == Remove(world, old(View()), guardHeld, original, owned)
    {
      fault := Around();
      if fault != NoFault { return; }
      if file != Some(owned) { return Failure; }
      if original.Some? {
        fault := CompareAndReplace(original, Some(owned));
      } else {
        Replace(None);
        fault := AfterReplacing();
      }
    }

    method AskModel(mayBeSaved: Question) returns (o: Option<Outcome>)
      modifies `now, `file, `modelSaved
      ensures (View(), o) == Ask(world, old(View()), guardHeld, mayBeSaved)
    {
      if mayBeSaved.None? { return None; }
      var fault := Around();
      if Sudden(fault) { return Some(Stopped(fault)); }
      var answer := if fault == Failure then Unknown else mayBeSaved.value(modelSaved);
      if answer == Aborted { return Some(Stopped(Interrupt)); }
      return if answer == No then None else Some(Partial);
    }

    /** The handler: takes the guard if there is one, asks, and removes the key. */
    method UndoKey(original: Content, owned: Bytes, error: Fault,
                   mayBeSaved: Question, guard: Option<Fault>) returns (o: Outcome)
      requires !guardHeld
      modifies `now, `file, `modelSaved, `temps, `changes, `guardHeld
      ensures !guardHeld
      ensures (View(), o) == Undo(world, old(View()), original, owned, error, mayBeSaved, guard)
    {
      if guard.Some? {
        if guard.value == Failure { return Partial; }
        if guard.value != NoFault { return Stopped(guard.value); }
        guardHeld := true;
      }
      var end := AskModel(mayBeSaved);
      if end.Some? {
        o := end.value;
      } else {
        var fault := RemoveKey(original, owned);
        o := if fault == Failure then Partial
             else if fault != NoFault then Stopped(fault)
             else if error == Failure then RolledBack else Reraised;
      }
      guardHeld := false;
    }

    method RunBlock(block: Block, owned: Bytes) returns (error: Fault)
      requires !guardHeld
      modifies this`now, this`file, this`modelSaved
      ensures (View(), error) == SecretRuns.RunBlock(world, old(View()), block, owned)
    {
      error := Around();
      if error != NoFault { return; }
      if block.saves { modelSaved := true; }
      error := Around();
      if error != NoFault { return; }
      error := block.end;
      if error != NoFault { return; }
      error := Around();
      if error == NoFault && file != Some(owned) { error := Failure; }
    }

    /** The block with its handler. */
    method GuardBlock(block: Block, original: Content, owned: Bytes,
                      mayBeSaved: Question, guard: Option<Fault>) returns (o: Outcome)
      requires !guardHeld
      modifies `now, `file, `modelSaved, `temps, `changes, `guardHeld
      ensures !guardHeld
      ensures (View(), o) == SecretRuns.GuardBlock(world, old(View()), block, original, owned, mayBeSaved, guard)
    {
      var error := RunBlock(block, owned);
      if error == NoFault { return Success; }
      if error == Crash { return Stopped(Crash); }
      o := UndoKey(original, owned, error, mayBeSaved, guard);
    }

    /** Reads the original and adds the key. */
    method AddKey(name: string, value: string) returns (original: Content, r: WriteResult)
      requires !guardHeld
      modifies `now, `file, `modelSaved, `temps, `changes
      ensures original == Seen(world, old(file), old(now))
      ensures (View(), r) == SecretRuns.AddKey(world, old(View()), name, value)
    {
      var fault := Around();
      original := file;
      if fault != NoFault { return original, Raised(fault); }
      r := WriteSecretEnv(name, value, true);
    }

    /** The transaction.  Whatever the world does: a failure that was rolled back or an
        interrupt that was raised again leaves exactly the bytes found at the start; a
        refused one leaves the file to the world; a partial state keeps the key, and
        only the world's writes may come over it; success leaves the key; and no
        temporary file survives unless the process crashes. */
    method NewSecretEnv(name: string, value: string, block: Block,
                        mayBeSaved: Question, guard: Option<Fault>) returns (o: Outcome)
      requires !guardHeld
      modifies this
      ensures !guardHeld
      ensures (View(), o) == Transaction(world, old(View()), name, value, block, mayBeSaved, guard)
      ensures TakenBack(o) ==> file == Seen(world, old(file), old(now))
      ensures Leaves(world, old(View()), name, value, View(), o)
    {
      var original, r := AddKey(name, value);
      if r.Raised? {
        o := Stopped(r.fault);
      } else {
        o := GuardBlock(block, original, r.owned, mayBeSaved, guard);
      }
      TransactionLeaves(world, old(View()), name, value, block, mayBeSaved, guard);
    }
  }
}
