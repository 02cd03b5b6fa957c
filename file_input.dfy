/** The file-selection slot of lib/hooks/useFileInputs.ts: one selected file,
    the object URL that previews it, and (for a video) its probed duration in
    whole seconds. The browser's object-URL registry is observed through a
    ghost log of every create and revoke call the slot makes, in order. */
module FileInput {
  import opened Wrappers

  /** A file as the browser reports it: name, size in bytes, MIME type. */
  datatype File = File(name: string, size: nat, mimeType: string)

  /** A media element's `duration`: not a finite number, or a real number of seconds. */
  datatype Duration = NonFinite | Finite(seconds: real)

  /** One call on the browser's object-URL registry. */
  datatype UrlCall = Created(url: string) | Revoked(url: string)

  const BytesPerMB: nat := 1024 * 1024

  /** The size guard: strictly larger than the ceiling is rejected. */
  predicate ExceedsLimit(f: File, maxSizeMB: nat) {
    f.size > maxSizeMB * BytesPerMB
  }

  /** `type.startsWith('video')`. */
  predicate IsVideo(f: File) {
    "video" <= f.mimeType
  }

  /** `Math.round`: the nearest integer, halves rounded up. */
  function Round(x: real): (n: int)
    ensures x - 0.5 < n as real <= x + 0.5
  {
    (x + 0.5).Floor
  }

  /** The duration the metadata callback stores: rounded when finite and
      positive, 0 otherwise. */
  function ProbedDuration(d: Duration): (n: nat)
    ensures d.Finite? && d.seconds > 0.0 ==> d.seconds - 0.5 < n as real <= d.seconds + 0.5
    ensures !(d.Finite? && d.seconds > 0.0) ==> n == 0
  {
    if d.Finite? && d.seconds > 0.0 then Round(d.seconds) else 0
  }

  // -----------------------------------------------------------------------
  // The slot as a value, and what each handler does to it
  // -----------------------------------------------------------------------

  /** The three state slots of the hook. `previewUrl` is `""` when there is none. */
  datatype Slot = Slot(file: Option<File>, previewUrl: string, duration: nat)

  const Cleared := Slot(None, "", 0)

  /** The effect of one handler: the new slot, the object-URL calls it makes
      in order, whether it alerts, and the URL a duration probe was started on. */
  datatype Step = Step(slot: Slot, urlCalls: seq<UrlCall>, alerted: bool, probe: Option<string>)

  /** The guarded revoke `if (previewUrl) URL.revokeObjectURL(previewUrl)`. */
  function RevokePreview(s: Slot): seq<UrlCall> {
    if s.previewUrl != "" then [Revoked(s.previewUrl)] else []
  }

  /** `handleFileChange`: `picked` is `files[0]`, `objectUrl` is what
      `URL.createObjectURL` returns for it. */
  function Change(s: Slot, picked: Option<File>, maxSizeMB: nat, objectUrl: string): Step {
    match picked
    case None => Step(s, [], false, None)
    case Some(f) =>
      if ExceedsLimit(f, maxSizeMB) then Step(s, [], true, None)
      else
        Step(Slot(Some(f), objectUrl, s.duration),
             RevokePreview(s) + [Created(objectUrl)],
             false,
             if IsVideo(f) then Some(objectUrl) else None)
  }

  /** The `onloadedmetadata` callback of the probe started on `probeUrl`. */
  function MetadataLoaded(s: Slot, probeUrl: string, d: Duration): Step {
    Step(s.(duration := ProbedDuration(d)), [Revoked(probeUrl)], false, None)
  }

  /** `resetFile`, apart from clearing the input control. */
  function Reset(s: Slot): Step {
    Step(Cleared, RevokePreview(s), false, None)
  }

  // -----------------------------------------------------------------------
  // Object-URL lifetime
  // -----------------------------------------------------------------------

  /** The URLs created and not (yet) revoked. */
  ghost function Live(log: seq<UrlCall>): set<string> {
    set c | c in log && c.Created? && Revoked(c.url) !in log :: c.url
  }

  /** A URL the registry has never handed out: what `createObjectURL` returns. */
  ghost predicate Fresh(url: string, log: seq<UrlCall>) {
    url != "" && Created(url) !in log && Revoked(url) !in log
  }

  /** The slot leaks no object URL: at most one is alive, and it is the
      stored preview URL; a stored preview URL was created by the slot. */
  ghost predicate NoLeak(s: Slot, log: seq<UrlCall>) {
    && Live(log) <= {s.previewUrl}
    && "" !in Live(log)
    && (s.previewUrl != "" ==> Created(s.previewUrl) in log)
  }

  lemma LiveAfterCreate(log: seq<UrlCall>, u: string)
    requires Revoked(u) !in log
    ensures Live(log + [Created(u)]) == Live(log) + {u}
  {
    var log' := log + [Created(u)];
    forall v | v in Live(log) + {u} ensures v in Live(log') {
      if v == u {
        assert Created(u) in log';
      } else {
        var c :| c in log && c.Created? && c.url == v && Revoked(v) !in log;
        assert c in log';
      }
    }
  }

  lemma LiveAfterRevoke(log: seq<UrlCall>, u: string)
    ensures Live(log + [Revoked(u)]) == Live(log) - {u}
  {
    var log' := log + [Revoked(u)];
    forall v | v in Live(log) - {u} ensures v in Live(log') {
      var c :| c in log && c.Created? && c.url == v && Revoked(v) !in log;
      assert c in log';
    }
  }

  lemma LiveAfterRevokePreview(s: Slot, log: seq<UrlCall>)
    requires "" !in Live(log)
    ensures Live(log + RevokePreview(s)) == Live(log) - {s.previewUrl}
  {
    if s.previewUrl != "" {
      LiveAfterRevoke(log, s.previewUrl);
    } else {
      assert log + RevokePreview(s) == log;
    }
  }

  /** An accepted selection revokes the old preview URL, creates a fresh one,
      and leaves the fresh one as the only live URL. */
  lemma ChangeKeepsNoLeak(s: Slot, log: seq<UrlCall>, picked: Option<File>, maxSizeMB: nat, objectUrl: string)
    requires NoLeak(s, log) && Fresh(objectUrl, log)
    ensures var st := Change(s, picked, maxSizeMB, objectUrl);
            NoLeak(st.slot, log + st.urlCalls)
            && (picked.Some? && !ExceedsLimit(picked.value, maxSizeMB) ==> Live(log + st.urlCalls) == {objectUrl})
  {
    var st := Change(s, picked, maxSizeMB, objectUrl);
    if picked.Some? && !ExceedsLimit(picked.value, maxSizeMB) {
      var mid := log + RevokePreview(s);
      LiveAfterRevokePreview(s, log);
      assert Revoked(objectUrl) !in mid;
      LiveAfterCreate(mid, objectUrl);
      assert log + st.urlCalls == mid + [Created(objectUrl)];
    }
  }

  /** The metadata callback only revokes, so it cannot leak. */
  lemma MetadataKeepsNoLeak(s: Slot, log: seq<UrlCall>, probeUrl: string, d: Duration)
    requires NoLeak(s, log)
    ensures var st := MetadataLoaded(s, probeUrl, d);
            NoLeak(st.slot, log + st.urlCalls)
            && Live(log + st.urlCalls) == Live(log) - {probeUrl}
  {
    LiveAfterRevoke(log, probeUrl);
  }

  /** After a reset no object URL of the slot is alive. */
  lemma ResetReleasesAll(s: Slot, log: seq<UrlCall>)
    requires NoLeak(s, log)
    ensures var st := Reset(s);
            NoLeak(st.slot, log + st.urlCalls) && Live(log + st.urlCalls) == {}
  {
    LiveAfterRevokePreview(s, log);
  }

  // -----------------------------------------------------------------------
  // What the handlers promise
  // -----------------------------------------------------------------------

  /** A change event without a file, or with a file over the ceiling, changes
      no state and revokes nothing; only the oversized file alerts. */
  lemma RejectedChangeIsInert(s: Slot, picked: Option<File>, maxSizeMB: nat, objectUrl: string)
    requires picked.None? || ExceedsLimit(picked.value, maxSizeMB)
    ensures var st := Change(s, picked, maxSizeMB, objectUrl);
            st.slot == s && st.urlCalls == [] && st.probe == None && st.alerted == picked.Some?
  {
  }

  /** A file of exactly the ceiling is accepted: the guard is strict. */
  lemma CeilingIsInclusive(s: Slot, f: File, maxSizeMB: nat, objectUrl: string)
    requires f.size == maxSizeMB * 1024 * 1024
    ensures Change(s, Some(f), maxSizeMB, objectUrl).slot.file == Some(f)
  {
  }

  /** An accepted file becomes the selection with the fresh URL as its
      preview; the old preview URL is revoked exactly when it is non-empty,
      and before the new URL is created; the duration is left as it was; a
      probe starts on the new URL exactly for video files. */
  lemma AcceptedChange(s: Slot, f: File, maxSizeMB: nat, objectUrl: string)
    requires !ExceedsLimit(f, maxSizeMB)
    ensures var st := Change(s, Some(f), maxSizeMB, objectUrl);
            && st.slot == Slot(Some(f), objectUrl, s.duration)
            && !st.alerted
            && st.urlCalls[|st.urlCalls| - 1] == Created(objectUrl)
            && (Revoked(s.previewUrl) in st.urlCalls <==> s.previewUrl != "")
            && (s.previewUrl != "" ==> st.urlCalls == [Revoked(s.previewUrl), Created(objectUrl)])
            && (s.previewUrl == "" ==> st.urlCalls == [Created(objectUrl)])
            && (st.probe == Some(objectUrl) <==> IsVideo(f))
            && (st.probe.Some? ==> IsVideo(f))
  {
  }

  /** The callback stores a non-negative whole number of seconds and always
      revokes the URL it probed. */
  lemma MetadataStoresDuration(s: Slot, probeUrl: string, d: Duration)
    ensures var st := MetadataLoaded(s, probeUrl, d);
            && st.slot.file == s.file && st.slot.previewUrl == s.previewUrl
            && st.slot.duration == ProbedDuration(d)
            && (d.Finite? && d.seconds > 0.0 ==> st.slot.duration == Round(d.seconds))
            && st.urlCalls == [Revoked(probeUrl)]
  {
  }

  /** A second reset in a row revokes nothing and gives the same state. */
  lemma ResetIsIdempotent(s: Slot)
    ensures Reset(Reset(s).slot) == Step(Cleared, [], false, None)
    ensures Reset(s).slot == Reset(Reset(s).slot).slot
  {
  }

  /** The probe's URL is the preview URL itself, so the callback revokes the
      live preview while it stays stored; the next reset (or selection)
      revokes the same URL a second time. */
  lemma PreviewRevokedTwice(s: Slot, log: seq<UrlCall>, f: File, maxSizeMB: nat, u: string, d: Duration)
    requires NoLeak(s, log) && Fresh(u, log)
    requires !ExceedsLimit(f, maxSizeMB) && IsVideo(f)
    ensures var st1 := Change(s, Some(f), maxSizeMB, u);
            var st2 := MetadataLoaded(st1.slot, st1.probe.value, d);
            var st3 := Reset(st2.slot);
            var calls := st1.urlCalls + st2.urlCalls + st3.urlCalls;
            && st1.probe == Some(st1.slot.previewUrl)
            && st2.slot.previewUrl == u
            && u !in Live(log + st1.urlCalls + st2.urlCalls)
            && multiset(calls)[Revoked(u)] == 2
  {
    var st1 := Change(s, Some(f), maxSizeMB, u);
    var st2 := MetadataLoaded(st1.slot, u, d);
    ChangeKeepsNoLeak(s, log, Some(f), maxSizeMB, u);
    MetadataKeepsNoLeak(st1.slot, log + st1.urlCalls, u, d);
    assert log + st1.urlCalls + st2.urlCalls == (log + st1.urlCalls) + st2.urlCalls;
    assert s.previewUrl != u;
    var calls := st1.urlCalls + st2.urlCalls + Reset(st2.slot).urlCalls;
    assert calls == RevokePreview(s) + [Created(u), Revoked(u), Revoked(u)];
  }

  // -----------------------------------------------------------------------
  // The hook
  // -----------------------------------------------------------------------

  /** The input control the hook's ref points at once it is rendered. */
  class InputElement {
    var value: string

    constructor (value: string)
      ensures this.value == value
    {
      this.value := value;
    }
  }

  /** `useFileInput(maxSizeMB)`: the state slots, the ref, and the handlers. */
  class FileSlot {
    const maxSizeMB: nat
    var file: Option<File>
    var previewUrl: string
    var duration: nat
    /** `inputRef.current`: null until the input is attached. */
    var inputRef: InputElement?
    /** Every `createObjectURL` / `revokeObjectURL` call, in order. */
    ghost var urlLog: seq<UrlCall>
    /** How many times the size alert was shown. */
    ghost var alerts: nat
    /** The URLs on which a duration probe was started. */
    ghost var probes: set<string>

    ghost function State(): Slot
      reads this
    {
      Slot(file, previewUrl, duration)
    }

    ghost predicate Valid()
      reads this
    {
      NoLeak(State(), urlLog) && forall u :: u in probes ==> Created(u) in urlLog
    }

    constructor (maxSizeMB: nat)
      ensures this.maxSizeMB == maxSizeMB
      ensures State() == Cleared && inputRef == null
      ensures urlLog == [] && alerts == 0 && probes == {}
      ensures Valid()
    {
      this.maxSizeMB := maxSizeMB;
      file := None;
      previewUrl := "";
      duration := 0;
      inputRef := null;
      urlLog := [];
      alerts := 0;
      probes := {};
    }

    /** `handleFileChange`, with `picked` the event's first file and
        `objectUrl` the fresh URL `createObjectURL` would return. */
    method HandleFileChange(picked: Option<File>, objectUrl: string)
      requires Valid() && Fresh(objectUrl, urlLog)
      modifies this`file, this`previewUrl, this`urlLog, this`alerts, this`probes
      ensures Valid()
      ensures var st := Change(old(State()), picked, maxSizeMB, objectUrl);
              && State() == st.slot
              && urlLog == old(urlLog) + st.urlCalls
              && alerts == old(alerts) + (if st.alerted then 1 else 0)
              && probes == old(probes) + (if st.probe.Some? then {st.probe.value} else {})
    {
      ghost var before := State();
      ChangeKeepsNoLeak(before, urlLog, picked, maxSizeMB, objectUrl);
      if picked.Some? {
        var selectedFile := picked.value;
        if selectedFile.size > maxSizeMB * 1024 * 1024 {
          alerts := alerts + 1;
          return;
        }
        if previewUrl != "" {
          urlLog := urlLog + [Revoked(previewUrl)];
        }
        file := Some(selectedFile);
        urlLog := urlLog + [Created(objectUrl)];
        previewUrl := objectUrl;
        if "video" <= selectedFile.mimeType {
          probes := probes + {objectUrl};
        }
      }
    }

    /** The `onloadedmetadata` callback of the probe started on `probeUrl`,
        with `d` the element's reported duration. */
    method OnLoadedMetadata(probeUrl: string, d: Duration)
      requires Valid() && probeUrl in probes
      modifies this`duration, this`urlLog
      ensures Valid()
      ensures var st := MetadataLoaded(old(State()), probeUrl, d);
              State() == st.slot && urlLog == old(urlLog) + st.urlCalls
    {
      MetadataKeepsNoLeak(State(), urlLog, probeUrl, d);
      if d.Finite? && d.seconds > 0.0 {
        duration := Round(d.seconds);
      } else {
        duration := 0;
      }
      urlLog := urlLog + [Revoked(probeUrl)];
    }

    /** `resetFile`: revoke the preview, clear the slots and the input control. */
    method ResetFile()
      requires Valid()
      modifies this`file, this`previewUrl, this`duration, this`urlLog, inputRef
      ensures Valid()
      ensures var st := Reset(old(State()));
              State() == st.slot && urlLog == old(urlLog) + st.urlCalls
      ensures Live(urlLog) == {}
      ensures inputRef == old(inputRef)
      ensures inputRef != null ==> inputRef.value == ""
    {
      ResetReleasesAll(State(), urlLog);
      if previewUrl != "" {
        urlLog := urlLog + [Revoked(previewUrl)];
      }
      file := None;
      previewUrl := "";
      duration := 0;
      if inputRef != null {
        inputRef.value := "";
      }
    }
  }

  /** A client run: the slot keeps at most one live URL through a video
      selection, its probe, a second selection and a reset. */
  method SelectProbeReselectReset(f: File, g: File, u: string, v: string, d: Duration)
    requires f.size <= 1024 * 1024 && IsVideo(f) && g.size <= 1024 * 1024
    requires u != "" && v != "" && u != v
  {
    var slot := new FileSlot(1);
    slot.HandleFileChange(Some(f), u);
    assert slot.previewUrl == u && Live(slot.urlLog) == {u};
    slot.OnLoadedMetadata(u, d);
    assert slot.previewUrl == u && u !in Live(slot.urlLog);
    slot.HandleFileChange(Some(g), v);
    assert slot.urlLog == [Created(u), Revoked(u), Revoked(u), Created(v)];
    slot.ResetFile();
    assert slot.State() == Cleared && Live(slot.urlLog) == {};
  }
}
