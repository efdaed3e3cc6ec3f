// Replacing one file of a run directory as a whole (json_store.py:100-194): the
// system calls behind a save, each of which may fail or be the last one that
// the process makes, and what a reader finds after any of them.

module AtomicWrite {
  import opened Domain
  import opened Redaction
  import Codec

  /** What a file holds, and whether all of it has reached the device. */
  datatype File = File(text: string, synced: bool)

  type Listing = map<string, File>

  /** From instant swap on the name target holds after, before that it holds
      before: readers see one change, and no instant shows part of it. */
  ghost predicate Switches(history: seq<Listing>, from: nat, swap: nat, target: string, before: Option<File>,
                           after: Option<File>) {
    && from <= swap <= |history|
    && (forall k | from <= k < swap :: Lookup(history[k], target) == before)
    && (forall k | swap <= k < |history| :: Lookup(history[k], target) == after)
  }

  function Lookup(files: Listing, name: string): Option<File> {
    if name in files then Some(files[name]) else None
  }

  /** Names other than target and temporary files read as they did. */
  ghost predicate OthersKept(history: seq<Listing>, from: nat, target: string, before: Listing) {
    forall k, name | from <= k < |history| && name in before && name != target :: Lookup(history[k], name) == Some(before[name])
  }

  function TemporaryName(target: string, random: string): string {
    "." + target + "." + random + ".tmp"
  }

  lemma {:induction false} TemporaryDiffers(target: string, random: string)
    ensures TemporaryName(target, random) != target
  {
    assert |TemporaryName(target, random)| > |target|;
  }

  // ----- the store of one run on top of it -----

  const STATE := "state.json"

  const EVENTS := "events.jsonl"

  /** json.dumps and json.loads: printing, and parsing what was printed. */
  datatype JsonText = JsonText(dumps: Json -> string, loads: string -> Option<Json>)

  ghost predicate Inverse(text: JsonText) {
    forall v: Json :: text.loads(text.dumps(v) + "\n") == Some(v)
  }

  datatype LoadError = Unreadable | Corrupt(problem: Codec.Problem)

  function Print(pf: Platform, text: JsonText, s: Snapshot): string {
    text.dumps(RedactJson(pf, Codec.ToJson(s))) + "\n"
  }

  /** json_store.py:107-124, on the directory as it is at one instant. */
  function Load(pf: Platform, text: JsonText, files: Listing): Result<Snapshot, LoadError> {
    if STATE !in files then Err(Unreadable) else
      match text.loads(files[STATE].text)
      case None => Err(Unreadable)
      case Some(v) =>
        match Codec.FromJson(pf, v)
        case Ok(s) => Ok(s)
        case Err(problem) => Err(Corrupt(problem))
  }

  /** The printed form of a saveable state loads as its redacted form. */
  lemma {:induction false} PrintedLoads(pf: Platform, text: JsonText, s: Snapshot, files: Listing)
    requires Codec.CleanNames(pf) && ValidPlatform(pf) && Codec.TimesValid(pf, s) && s.schemaVersion == 1
    requires Inverse(text) && STATE in files && files[STATE].text == Print(pf, text, s)
    ensures KeysClean(pf, s) ==> Load(pf, text, files) == Ok(Persisted(pf, s))
    ensures !KeysClean(pf, s) ==> Load(pf, text, files).Err? && Load(pf, text, files).error.Corrupt?
  {
    Codec.SaveThenLoad(pf, s);
    hide Codec.CleanNames, ValidPlatform, Codec.TimesValid, KeysClean, Persisted, Codec.FromJson, Codec.ToJson,
      RedactJson;
    var v := RedactJson(pf, Codec.ToJson(s));
    assert text.loads(text.dumps(v) + "\n") == Some(v);
  }

  /** A reader at any instant of history finds what loaded before until swap, and
      s, redacted, from then on. */
  ghost predicate ReadersSwitch(pf: Platform, text: JsonText, history: seq<Listing>, from: nat, swap: nat,
                                before: Result<Snapshot, LoadError>, s: Snapshot) {
    && (forall k | from <= k < swap && k < |history| :: Load(pf, text, history[k]) == before)
    && (forall k | from <= k && swap <= k < |history| :: Load(pf, text, history[k]) == Ok(Persisted(pf, s)))
  }

  lemma {:induction false} SwitchSeen(pf: Platform, text: JsonText, history: seq<Listing>, from: nat, swap: nat,
                                      files: Listing, s: Snapshot)
    requires Codec.CleanNames(pf) && ValidPlatform(pf) && Codec.TimesValid(pf, s) && s.schemaVersion == 1
    requires Inverse(text) && KeysClean(pf, s)
    requires Switches(history, from, swap, STATE, Lookup(files, STATE), Some(File(Print(pf, text, s), true)))
    ensures ReadersSwitch(pf, text, history, from, swap, Load(pf, text, files), s)
  {
    hide Codec.CleanNames, ValidPlatform, Codec.TimesValid, KeysClean, Persisted, Codec.FromJson, Print;
    forall k | swap <= k < |history| ensures Load(pf, text, history[k]) == Ok(Persisted(pf, s)) {
      assert Lookup(history[k], STATE) == Some(File(Print(pf, text, s), true));
      PrintedLoads(pf, text, s, history[k]);
    }
    forall k | from <= k < swap ensures Load(pf, text, history[k]) == Load(pf, text, files) {
      assert Lookup(history[k], STATE) == Lookup(files, STATE);
    }
  }

  /** From instant from on only name differs from before. */
  ghost predicate AddsOnly(history: seq<Listing>, from: nat, before: Listing, name: string) {
    forall k | from <= k < |history| :: name in history[k] && history[k] == before[name := history[k][name]]
  }

  /** While a file of another name is written, target and the rest stay. */
  lemma {:induction false} AddsElsewhere(history: seq<Listing>, from: nat, before: Listing, name: string, target: string)
    requires AddsOnly(history, from, before, name) && name !in before && name != target
    ensures forall k | from <= k < |history| :: Lookup(history[k], target) == Lookup(before, target)
    ensures OthersKept(history, from, target, before)
  {
  }

  /** Only name differs, by a prefix of text at its end. */
  ghost predicate GrownBy(before: Listing, now: Listing, name: string, text: string) {
    && name in before && name in now && now == before[name := now[name]]
    && exists n :: 0 <= n <= |text| && now[name].text == before[name].text + text[..n]
  }

  lemma {:induction false} LastRead(pf: Platform, text: JsonText, history: seq<Listing>, from: nat, swap: nat,
                                    files: Listing, s: Snapshot, now: Listing)
    requires ReadersSwitch(pf, text, history, from, swap, Load(pf, text, files), s)
    requires from < |history| && history[|history| - 1] == now
    ensures Load(pf, text, now) == if swap < |history| then Ok(Persisted(pf, s)) else Load(pf, text, files)
  {
    hide Load, Persisted;
    assert Load(pf, text, history[|history| - 1]) == Load(pf, text, now);
  }

  /** One run directory.  history records what it held after every step, which
      is what is left if the process ends there. */
  class Directory {
    var files: Listing
    var buffer: string
    ghost var history: seq<Listing>

    ghost predicate Valid()
      reads this
    {
      history != [] && history[|history| - 1] == files
    }

    /** The directory after mkdir. */
    constructor ()
      ensures Valid() && files == map[] && history == [map[]]
    {
      files, buffer, history := map[], "", [map[]];
    }

    method CreateTemporary(target: string) returns (created: Option<string>)
      requires Valid()
      modifies this
      ensures Valid() && history == old(history) + [files]
      ensures created.None? ==> files == old(files)
      ensures created.Some? ==>
                && created.value !in old(files) && created.value != target
                && files == old(files)[created.value := File("", false)]
    {
      var random: string := *;
      var fails: bool := *;
      TemporaryDiffers(target, random);
      var name := TemporaryName(target, random);
      if fails || name in files {
        created := None;
      } else {
        files := files[name := File("", false)];
        created := Some(name);
      }
      history := history + [files];
    }

    /** The first n characters of text have reached the file, after what it held
        before, and the rest is still buffered. */
    ghost predicate Drained(name: string, before: string, text: string, n: nat)
      reads this
    {
      n <= |text| && buffer == text[n..] && name in files && files[name].text == before + text[..n]
    }

    /** Part of the buffered text, possibly all of it, reaches the file. */
    method Drain(name: string, ghost before: string, ghost text: string, ghost done: nat) returns (ghost now: nat)
      requires Valid() && Drained(name, before, text, done)
      modifies this
      ensures Valid() && history == old(history) + [files]
      ensures done <= now && Drained(name, before, text, now)
      ensures files == old(files)[name := files[name]]
      ensures old(buffer) == "" ==> files == old(files) && buffer == ""
    {
      var n: int := *;
      if n < 0 || n > |buffer| {
        n := |buffer|;
      }
      now := done + n;
      assert text[..done] + buffer[..n] == text[..now];
      if n > 0 {
        files := files[name := File(files[name].text + buffer[..n], false)];
      }
      buffer := buffer[n..];
      history := history + [files];
    }

    /** stream.write and stream.flush: on success the file holds its former text
        followed by all of text. */
    method WriteAndFlush(name: string, text: string) returns (ok: bool, ghost n: nat)
      requires Valid() && name in files
      modifies this
      ensures Valid()
      ensures |old(history)| <= |history| && history[..|old(history)|] == old(history)
      ensures name in files && files == old(files)[name := files[name]]
      ensures forall k | |old(history)| <= k < |history| :: GrownBy(old(files), history[k], name, text)
      ensures Drained(name, old(files[name].text), text, n) && (ok ==> n == |text|)
    {
      ghost var before := files;
      buffer := text;
      n := Drain(name, before[name].text, text, 0);
      assert GrownBy(before, files, name, text);
      ghost var first := files;
      var fails: bool := *;
      if fails {
        return false, n;
      }
      n := Drain(name, before[name].text, text, n);
      assert files == before[name := files[name]] && GrownBy(before, files, name, text);
      ok := buffer == "";
    }

    method Sync(name: string) returns (ok: bool)
      requires Valid() && name in files
      modifies this`files, this`history
      ensures Valid() && history == old(history) + [files]
      ensures files == old(files)[name := File(old(files)[name].text, if ok then true else old(files)[name].synced)]
    {
      ok := *;
      files := files[name := File(files[name].text, if ok then true else files[name].synced)];
      history := history + [files];
    }

    method Replace(source: string, target: string) returns (ok: bool)
      requires Valid() && source in files && source != target
      modifies this`files, this`history
      ensures Valid() && history == old(history) + [files]
      ensures files == if ok then old(files)[target := old(files)[source]] - {source} else old(files)
    {
      ok := *;
      if ok {
        files := files[target := files[source]] - {source};
      }
      history := history + [files];
    }

    method Unlink(name: string) returns (ok: bool)
      requires Valid()
      modifies this`files, this`history
      ensures Valid() && history == old(history) + [files]
      ensures files == if ok then old(files) - {name} else old(files)
    {
      ok := *;
      if ok {
        files := files - {name};
      }
      history := history + [files];
    }

    /** Write, flush, sync and close the temporary file. */
    method FillTemporary(name: string, content: string) returns (ok: bool)
      requires Valid() && name in files && files[name].text == ""
      modifies this
      ensures Valid()
      ensures |old(history)| <= |history| && history[..|old(history)|] == old(history)
      ensures name in files && files == old(files)[name := files[name]]
      ensures AddsOnly(history, |old(history)|, old(files), name)
      ensures ok ==> files[name] == File(content, true)
    {
      ghost var n;
      ok, n := WriteAndFlush(name, content);
      if ok {
        ok := Sync(name);
      }
      // Closing writes what a failed flush has left, and may fail itself.
      n := Drain(name, "", content, n);
      var closes: bool := *;
      ok := ok && closes;
    }

    /** json_store.py:174-194. */
    method AtomicWriteText(target: string, content: string) returns (ok: bool, ghost swap: nat)
      requires Valid()
      modifies this
      ensures Valid()
      ensures |old(history)| < |history| && history[..|old(history)|] == old(history)
      ensures Switches(history, |old(history)|, swap, target, Lookup(old(files), target), Some(File(content, true)))
      ensures OthersKept(history, |old(history)|, target, old(files))
      ensures ok <==> swap < |history|
      ensures ok ==> files == old(files)[target := File(content, true)]
      ensures !ok ==>
                files == old(files)
                || exists left | left !in old(files) && left in files :: files == old(files)[left := files[left]]
    {
      ghost var before, from := files, |history|;
      var created := CreateTemporary(target);
      if created.None? {
        return false, |history|;
      }
      var name := created.value;
      var filled := FillTemporary(name, content);
      assert AddsOnly(history, from, before, name);
      AddsElsewhere(history, from, before, name, target);
      hide AddsOnly;
      ok, swap := Publish(name, target, content, filled, before, from);
    }

    /** The end of json_store.py:174-194: the filled file takes the target's place,
        or else the temporary file is removed. */
    method Publish(name: string, target: string, content: string, filled: bool, ghost before: Listing, ghost from: nat)
      returns (ok: bool, ghost swap: nat)
      requires Valid() && from < |history| && name != target && name !in before
      requires name in files && files == before[name := files[name]] && (filled ==> files[name] == File(content, true))
      requires forall k | from <= k < |history| :: Lookup(history[k], target) == Lookup(before, target)
      requires OthersKept(history, from, target, before)
      modifies this
      ensures Valid()
      ensures |old(history)| <= |history| && history[..|old(history)|] == old(history)
      ensures Switches(history, from, swap, target, Lookup(before, target), Some(File(content, true)))
      ensures OthersKept(history, from, target, before)
      ensures ok <==> swap < |history|
      ensures ok ==> files == before[target := File(content, true)]
      ensures !ok ==> files == before || files == before[name := old(files[name])]
    {
      ok := false;
      if filled {
        ok := Replace(name, target);
        swap := |history| - 1;
      }
      if ok {
        assert files == before[target := File(content, true)];
      } else {
        assert files == before[name := files[name]];
        var removed := Unlink(name);
        assert removed ==> files == before;
        swap := |history|;
      }
    }

    /** json_store.py:126-130.  Whenever the process ends, the state that loads is
        the previous one or all of the new one, and it is the new one once the
        call has succeeded. */
    method SaveState(pf: Platform, text: JsonText, s: Snapshot) returns (ok: bool, ghost swap: nat)
      requires Valid() && Inverse(text)
      requires Codec.CleanNames(pf) && ValidPlatform(pf) && Codec.TimesValid(pf, s) && s.schemaVersion == 1
      requires KeysClean(pf, s)
      modifies this
      ensures Valid()
      ensures |old(history)| <= |history| && history[..|old(history)|] == old(history)
      ensures ReadersSwitch(pf, text, history, |old(history)|, swap, old(Load(pf, text, files)), s)
      ensures OthersKept(history, |old(history)|, STATE, old(files))
      ensures ok <==> swap < |history|
      ensures Load(pf, text, files) == if ok then Ok(Persisted(pf, s)) else old(Load(pf, text, files))
    {
      hide Codec.CleanNames, ValidPlatform, Codec.TimesValid, KeysClean, Persisted, Codec.FromJson, Print, Load;
      ghost var before := files;
      ok, swap := AtomicWriteText(STATE, Print(pf, text, s));
      SwitchSeen(pf, text, history, |old(history)|, swap, before, s);
      LastRead(pf, text, history, |old(history)|, swap, before, s, files);
    }

    /** json_store.py:100-105, after mkdir: the state appears after the event log,
        whole. */
    method CreateRun(pf: Platform, text: JsonText, s: Snapshot) returns (ok: bool)
      requires Valid() && files == map[] && Inverse(text)
      requires Codec.CleanNames(pf) && ValidPlatform(pf) && Codec.TimesValid(pf, s) && s.schemaVersion == 1
      requires KeysClean(pf, s)
      modifies this
      ensures Valid()
      ensures |old(history)| <= |history| && history[..|old(history)|] == old(history)
      ensures forall k | |old(history)| <= k < |history| ::
                STATE !in history[k] || (EVENTS in history[k] && Load(pf, text, history[k]) == Ok(Persisted(pf, s)))
      ensures ok ==> EVENTS in files && files[EVENTS].text == "" && Load(pf, text, files) == Ok(Persisted(pf, s))
    {
      hide Codec.CleanNames, ValidPlatform, Codec.TimesValid, KeysClean, Persisted, Codec.FromJson, Print, Load;
      var created: bool, fails: bool := *, *;
      if created || !fails {
        files := files[EVENTS := File("", false)];
        history := history + [files];
      }
      if fails {
        return false;
      }
      ghost var started := |history|;
      ghost var before := files;
      ghost var swap;
      ok, swap := AtomicWriteText(STATE, Print(pf, text, s));
      SwitchSeen(pf, text, history, started, swap, before, s);
      forall k | started <= k < |history|
        ensures STATE !in history[k] || (EVENTS in history[k] && Load(pf, text, history[k]) == Ok(Persisted(pf, s)))
      {
        assert Lookup(history[k], EVENTS) == Some(before[EVENTS]);
        assert k < swap ==> Lookup(history[k], STATE) == Lookup(before, STATE);
      }
      assert ok ==> history[|history| - 1] == files;
    }

    /** json_store.py:132-140.  The log only grows, by a prefix of the line, and by
        the whole line once the call has succeeded. */
    method AppendLine(line: string) returns (ok: bool)
      requires Valid()
      modifies this
      ensures Valid()
      ensures |old(history)| <= |history| && history[..|old(history)|] == old(history)
      ensures EVENTS !in old(files) ==> !ok && files == old(files) && history == old(history)
      ensures EVENTS in old(files) ==>
                forall k | |old(history)| <= k < |history| ::
                  GrownBy(old(files), history[k], EVENTS, line)
      ensures ok ==> files == old(files)[EVENTS := File(old(files)[EVENTS].text + line, true)]
    {
      if EVENTS !in files {
        return false;
      }
      ghost var before, n := files, 0;
      ok, n := WriteAndFlush(EVENTS, line);
      if ok {
        ok := Sync(EVENTS);
      }
      assert ok ==> line[..n] == line && buffer == "" && files[EVENTS] == File(before[EVENTS].text + line, true);
      n := Drain(EVENTS, before[EVENTS].text, line, n);
      assert files == before[EVENTS := files[EVENTS]] && GrownBy(before, files, EVENTS, line);
      var closes: bool := *;
      ok := ok && closes;
    }
  }
}
