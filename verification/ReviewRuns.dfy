/** A review run's directory: atomic publication, its record, and a crash after any file-system effect. */
module ReviewRuns {
  import opened Wrappers
  import opened Text
  import opened ByteLines

  datatype RunState = Publishing | Published | Failed

  datatype Artifact = Artifact(name: string, bytes: nat, sha256: string)

  datatype Outcome = Accepted | StructurallyRejected | ValidationUnavailable

  datatype Provenance = Provenance(outcome: Outcome, artifact: Option<Artifact>)

  datatype Record = Record(state: RunState, artifacts: seq<Artifact>, finalize: Option<Provenance>)

  datatype Caps = Caps(maxBytes: nat, maxFileBytes: nat)

  /** A file holds bytes or the run record. */
  datatype Content = Data(bytes: Bytes) | Meta(record: Record)

  /** The published files, and the temporary file of the publication in progress. */
  datatype Dir = Dir(files: map<string, Content>, temp: Option<Content>)

  datatype RunError = BadName | BadState | FileCap | RunCap | NoRecord | NotAccepted | RefMismatch | DigestMismatch

  const METADATA := "metadata.json"
  const FINALIZE := "phase-finalize.json"

  // ------------------------------------------------------------------
  // Names
  // ------------------------------------------------------------------

  /** One bounded segment that is not the record's name in any case. */
  predicate ArtifactName(name: string) {
    && 1 <= |name| <= 128 && (Letter(name[0]) || Digit(name[0]))
    && (forall i :: 0 <= i < |name| ==> Letter(name[i]) || Digit(name[i]) || name[i] == '.' || name[i] == '_' || name[i] == '-')
    && Lower(name) != METADATA
  }

  // ------------------------------------------------------------------
  // File-system effects
  // ------------------------------------------------------------------

  datatype Effect = WriteTemp(content: Content) | RenameTo(name: string)

  function Perform(dir: Dir, e: Effect): Dir {
    match e
    case WriteTemp(content) => dir.(temp := Some(content))
    case RenameTo(name) => if dir.temp.Some? then Dir(dir.files[name := dir.temp.value], None) else dir
  }

  function PerformAll(dir: Dir, effects: seq<Effect>): Dir
    decreases |effects|
  {
    if effects == [] then dir else PerformAll(Perform(dir, effects[0]), effects[1..])
  }

  /** One file to publish. */
  datatype Publication = Publication(name: string, content: Content)

  /** Each is written to a temporary file and then renamed. */
  function Effects(publications: seq<Publication>): seq<Effect> {
    if publications == [] then []
    else [WriteTemp(publications[0].content), RenameTo(publications[0].name)] + Effects(publications[1..])
  }

  function PublishAll(files: map<string, Content>, publications: seq<Publication>): map<string, Content>
    decreases |publications|
  {
    if publications == [] then files else PublishAll(files[publications[0].name := publications[0].content], publications[1..])
  }

  /** The directory when the process dies after k effects. */
  function Crashed(dir: Dir, publications: seq<Publication>, k: nat): Dir
    requires k <= |Effects(publications)|
  {
    PerformAll(dir, Effects(publications)[..k])
  }

  lemma {:induction false} EffectsCount(publications: seq<Publication>)
    ensures |Effects(publications)| == 2 * |publications|
  {
    if publications != [] {
      EffectsCount(publications[1..]);
    }
  }

  /** A rename is atomic: whenever the process dies, the files are those of some number of whole publications. */
  lemma {:induction false} CrashIsAtomic(dir: Dir, publications: seq<Publication>, k: nat)
    requires k <= |Effects(publications)|
    ensures k / 2 <= |publications| && Crashed(dir, publications, k).files == PublishAll(dir.files, publications[..k / 2])
    decreases |publications|
  {
    EffectsCount(publications);
    if k == 0 {
      assert Effects(publications)[..0] == [] && publications[..0] == [];
    } else {
      var effects := Effects(publications);
      var one := Perform(dir, effects[0]);
      assert effects[..k][1..] == effects[1..k];
      if k > 1 {
        var two := Perform(one, effects[1]);
        assert effects[1..k][1..] == effects[2..k];
        assert effects[2..] == Effects(publications[1..]);
        assert effects[2..k] == Effects(publications[1..])[..k - 2];
        var rest := publications[1..];
        CrashIsAtomic(two, rest, k - 2);
        assert (k - 2) / 2 == k / 2 - 1;
        assert publications[..k / 2][1..] == rest[..k / 2 - 1];
        assert two.files == dir.files[publications[0].name := publications[0].content];
        assert PerformAll(dir, effects[..k]) == PerformAll(one, effects[1..k]) == PerformAll(two, effects[2..k]);
      } else {
        assert k / 2 == 0 && effects[1..1] == [] && publications[..0] == [];
        assert PerformAll(dir, effects[..k]) == one;
      }
    }
  }

  // ------------------------------------------------------------------
  // Operations
  // ------------------------------------------------------------------

  predicate HasRecord(files: map<string, Content>) { METADATA in files && files[METADATA].Meta? }

  function RecordOf(files: map<string, Content>): Record
    requires HasRecord(files)
  {
    files[METADATA].record
  }

  function Total(artifacts: seq<Artifact>): nat {
    if artifacts == [] then 0 else Total(artifacts[..|artifacts| - 1]) + artifacts[|artifacts| - 1].bytes
  }

  function Describe(name: string, data: Bytes, sha: Bytes -> string): Artifact { Artifact(name, |data|, sha(data)) }

  /** The caps are checked before anything is written. */
  function Refusal(record: Record, name: string, data: Bytes, caps: Caps): Option<RunError> {
    if record.state == Failed then Some(BadState)
    else if !ArtifactName(name) then Some(BadName)
    else if |data| > caps.maxFileBytes then Some(FileCap)
    else if Total(record.artifacts) + |data| > caps.maxBytes then Some(RunCap)
    else None
  }

  function Listed(record: Record, a: Artifact): Record { record.(artifacts := record.artifacts + [a]) }

  /** A run that is still publishing first has its record written again. */
  function Addition(record: Record, name: string, data: Bytes, sha: Bytes -> string): seq<Publication> {
    (if record.state == Publishing then [Publication(METADATA, Meta(record))] else [])
    + [Publication(name, Data(data)), Publication(METADATA, Meta(Listed(record, Describe(name, data, sha))))]
  }

  datatype Op =
    | Add(name: string, data: Bytes)
    | Finalize(data: Bytes)                       // an accepted finalize phase
    | Reject(outcome: Outcome)                    // a finalize phase that was not accepted
    | Close(state: RunState)                      // publish or fail

  /** What an operation publishes, given the record it reads. */
  function Publications(record: Record, op: Op, caps: Caps, sha: Bytes -> string): seq<Publication> {
    match op
    case Add(name, data) =>
      if Refusal(record, name, data, caps).Some? then [] else Addition(record, name, data, sha)
    case Finalize(data) =>
      if Refusal(record, FINALIZE, data, caps).Some? then []
      else
        var a := Describe(FINALIZE, data, sha);
        Addition(record, FINALIZE, data, sha)
        + [Publication(METADATA, Meta(Listed(record, a).(finalize := Some(Provenance(Accepted, Some(a))))))]
    case Reject(outcome) =>
      if outcome == Accepted then [] else [Publication(METADATA, Meta(record.(finalize := Some(Provenance(outcome, None)))))]
    case Close(state) =>
      if state == Publishing then [] else [Publication(METADATA, Meta(record.(state := state)))]
  }

  /** What the persist operation reads and checks. */
  function Persist(dir: Dir, ref: string, caps: Caps, sha: Bytes -> string): Result<Bytes, RunError> {
    if !HasRecord(dir.files) then Failure(NoRecord) else
    var finalize := RecordOf(dir.files).finalize;
    if finalize == None || finalize.value.outcome != Accepted || finalize.value.artifact == None then Failure(NotAccepted)
    else if ref != finalize.value.artifact.value.name then Failure(RefMismatch)
    else if ref !in dir.files || !dir.files[ref].Data? || |dir.files[ref].bytes| > caps.maxFileBytes then Failure(DigestMismatch)
    else
      var bytes := dir.files[ref].bytes;
      if |bytes| != finalize.value.artifact.value.bytes || sha(bytes) != finalize.value.artifact.value.sha256 then Failure(DigestMismatch)
      else Success(bytes)
  }

  // ------------------------------------------------------------------
  // Crash consistency
  // ------------------------------------------------------------------

  /** The artifact is on disk as described. */
  predicate OnDisk(files: map<string, Content>, a: Artifact, sha: Bytes -> string) {
    && ArtifactName(a.name)
    && a.name in files && files[a.name].Data? && |files[a.name].bytes| == a.bytes && sha(files[a.name].bytes) == a.sha256
  }

  predicate Consistent(files: map<string, Content>, sha: Bytes -> string) {
    && HasRecord(files)
    && forall i :: 0 <= i < |RecordOf(files).artifacts| ==> OnDisk(files, RecordOf(files).artifacts[i], sha)
  }

  /** No listed artifact of that name describes other bytes. */
  predicate Agrees(record: Record, name: string, data: Bytes, sha: Bytes -> string) {
    forall i :: 0 <= i < |record.artifacts| && record.artifacts[i].name == name ==>
      record.artifacts[i] == Describe(name, data, sha)
  }

  lemma MetadataIsReserved(name: string)
    requires ArtifactName(name)
    ensures name != METADATA
  {
    var m := METADATA;
    assert m[0] == 'm' && m[1] == 'e' && m[2] == 't' && m[3] == 'a' && m[4] == 'd' && m[5] == 'a' && m[6] == 't'
           && m[7] == 'a' && m[8] == '.' && m[9] == 'j' && m[10] == 's' && m[11] == 'o' && m[12] == 'n';
    LowerIsIdentity(m);
  }

  /** Putting bytes under a name keeps a consistent directory consistent exactly when they agree with the record. */
  lemma PutArtifact(dir: Dir, name: string, data: Bytes, sha: Bytes -> string)
    requires Consistent(dir.files, sha) && ArtifactName(name)
    ensures Consistent(dir.files[name := Data(data)], sha) <==> Agrees(RecordOf(dir.files), name, data, sha)
  {
    MetadataIsReserved(name);
    var files := dir.files[name := Data(data)];
    var artifacts := RecordOf(dir.files).artifacts;
    assert HasRecord(files) && RecordOf(files) == RecordOf(dir.files);
    forall i | 0 <= i < |artifacts|
      ensures OnDisk(files, artifacts[i], sha) <==> artifacts[i].name != name || artifacts[i] == Describe(name, data, sha)
    {
    }
  }

  /** Putting a record of the same artifacts changes nothing else. */
  lemma PutRecord(files: map<string, Content>, record: Record, sha: Bytes -> string)
    ensures Consistent(files[METADATA := Meta(record)], sha) <==>
            forall i :: 0 <= i < |record.artifacts| ==> OnDisk(files, record.artifacts[i], sha)
  {
    var after := files[METADATA := Meta(record)];
    assert RecordOf(after) == record;
    forall i | 0 <= i < |record.artifacts|
      ensures OnDisk(after, record.artifacts[i], sha) <==> OnDisk(files, record.artifacts[i], sha)
    {
      if ArtifactName(record.artifacts[i].name) {
        MetadataIsReserved(record.artifacts[i].name);
      }
    }
  }

  /** Listing the artifact just put. */
  lemma PutListed(dir: Dir, name: string, data: Bytes, finalize: Option<Provenance>, sha: Bytes -> string)
    requires Consistent(dir.files, sha) && ArtifactName(name)
    ensures Consistent(dir.files[name := Data(data)][METADATA := Meta(Listed(RecordOf(dir.files), Describe(name, data, sha)).(finalize := finalize))], sha)
            <==> Agrees(RecordOf(dir.files), name, data, sha)
  {
    MetadataIsReserved(name);
    var files := dir.files[name := Data(data)];
    var a := Describe(name, data, sha);
    var record := Listed(RecordOf(dir.files), a).(finalize := finalize);
    PutRecord(files, record, sha);
    PutArtifact(dir, name, data, sha);
    assert files[METADATA] == dir.files[METADATA];
    assert OnDisk(files, a, sha) && record.artifacts[|RecordOf(dir.files).artifacts|] == a;
    forall i | 0 <= i < |RecordOf(dir.files).artifacts| ensures record.artifacts[i] == RecordOf(dir.files).artifacts[i] {
    }
  }

  // ------------------------------------------------------------------
  // The files during an operation
  // ------------------------------------------------------------------

  lemma {:induction false} PublishLast(files: map<string, Content>, publications: seq<Publication>, last: Publication)
    ensures PublishAll(files, publications + [last]) == PublishAll(files, publications)[last.name := last.content]
    decreases |publications|
  {
    var all := publications + [last];
    if publications != [] {
      assert all[1..] == publications[1..] + [last];
      PublishLast(files[publications[0].name := publications[0].content], publications[1..], last);
    } else {
      assert all[1..] == [];
    }
  }

  lemma PublishPrefix(files: map<string, Content>, publications: seq<Publication>, j: nat)
    requires 0 < j <= |publications|
    ensures PublishAll(files, publications[..j]) ==
            PublishAll(files, publications[..j - 1])[publications[j - 1].name := publications[j - 1].content]
  {
    assert publications[..j] == publications[..j - 1] + [publications[j - 1]];
    PublishLast(files, publications[..j - 1], publications[j - 1]);
  }

  /** How many publications come before the artifact's. */
  function Lead(record: Record): nat { if record.state == Publishing then 1 else 0 }

  lemma AdditionFiles(dir: Dir, name: string, data: Bytes, more: seq<Publication>, sha: Bytes -> string, j: nat)
    requires HasRecord(dir.files)
    requires j <= |Addition(RecordOf(dir.files), name, data, sha) + more|
    ensures var record, files := RecordOf(dir.files), PublishAll(dir.files, (Addition(RecordOf(dir.files), name, data, sha) + more)[..j]);
            && (j <= Lead(record) ==> files == dir.files)
            && (j == Lead(record) + 1 ==> files == dir.files[name := Data(data)])
            && (j == Lead(record) + 2 ==> files == dir.files[name := Data(data)][METADATA := Meta(Listed(record, Describe(name, data, sha)))])
  {
    var record := RecordOf(dir.files);
    var all := Addition(record, name, data, sha) + more;
    assert all[..0] == [];
    assert dir.files[METADATA := Meta(record)] == dir.files;
    if j > 0 {
      PublishPrefix(dir.files, all, j);
    }
    if j > 1 {
      PublishPrefix(dir.files, all, j - 1);
    }
    if j > 2 {
      PublishPrefix(dir.files, all, j - 2);
    }
  }

  lemma AddConsistency(dir: Dir, name: string, data: Bytes, sha: Bytes -> string, j: nat)
    requires Consistent(dir.files, sha) && ArtifactName(name) && j <= |Addition(RecordOf(dir.files), name, data, sha)|
    ensures Consistent(PublishAll(dir.files, Addition(RecordOf(dir.files), name, data, sha)[..j]), sha)
            <==> j <= Lead(RecordOf(dir.files)) || Agrees(RecordOf(dir.files), name, data, sha)
  {
    var all := Addition(RecordOf(dir.files), name, data, sha);
    assert all + [] == all;
    AdditionFiles(dir, name, data, [], sha, j);
    PutArtifact(dir, name, data, sha);
    PutListed(dir, name, data, RecordOf(dir.files).finalize, sha);
  }

  lemma ProvenConsistency(dir: Dir, name: string, data: Bytes, finalize: Option<Provenance>, sha: Bytes -> string, last: seq<Publication>, j: nat)
    requires Consistent(dir.files, sha) && ArtifactName(name)
    requires last == [Publication(METADATA, Meta(Listed(RecordOf(dir.files), Describe(name, data, sha)).(finalize := finalize)))]
    requires j <= |Addition(RecordOf(dir.files), name, data, sha) + last|
    ensures Consistent(PublishAll(dir.files, (Addition(RecordOf(dir.files), name, data, sha) + last)[..j]), sha)
            <==> j <= Lead(RecordOf(dir.files)) || Agrees(RecordOf(dir.files), name, data, sha)
  {
    var record := RecordOf(dir.files);
    var all := Addition(record, name, data, sha) + last;
    PutArtifact(dir, name, data, sha);
    PutListed(dir, name, data, record.finalize, sha);
    PutListed(dir, name, data, finalize, sha);
    if j == |all| {
      AdditionFiles(dir, name, data, last, sha, j - 1);
      PublishPrefix(dir.files, all, j);
      TwoRecords(dir.files[name := Data(data)], Listed(record, Describe(name, data, sha)), last[0].content.record);
    } else {
      AdditionFiles(dir, name, data, last, sha, j);
    }
  }

  lemma TwoRecords(files: map<string, Content>, first: Record, second: Record)
    ensures files[METADATA := Meta(first)][METADATA := Meta(second)] == files[METADATA := Meta(second)]
  {
  }

  lemma RecordConsistency(dir: Dir, record: Record, sha: Bytes -> string, j: nat)
    requires Consistent(dir.files, sha) && record.artifacts == RecordOf(dir.files).artifacts && j <= 1
    ensures Consistent(PublishAll(dir.files, [Publication(METADATA, Meta(record))][..j]), sha)
  {
    var all := [Publication(METADATA, Meta(record))];
    assert all[..0] == [];
    if j == 1 {
      PublishPrefix(dir.files, all, 1);
      PutRecord(dir.files, record, sha);
    }
  }

  // ------------------------------------------------------------------
  // Main results
  // ------------------------------------------------------------------

  /** The operation is refused, writes no artifact, or writes bytes that no listed artifact of that name contradicts. */
  predicate Safe(record: Record, op: Op, caps: Caps, sha: Bytes -> string) {
    match op
    case Add(name, data) => Refusal(record, name, data, caps).Some? || Agrees(record, name, data, sha)
    case Finalize(data) => Refusal(record, FINALIZE, data, caps).Some? || Agrees(record, FINALIZE, data, sha)
    case Reject(_) => true
    case Close(_) => true
  }

  lemma ConsistentDuring(dir: Dir, op: Op, caps: Caps, sha: Bytes -> string, j: nat)
    requires Consistent(dir.files, sha) && j <= |Publications(RecordOf(dir.files), op, caps, sha)|
    ensures Consistent(PublishAll(dir.files, Publications(RecordOf(dir.files), op, caps, sha)[..j]), sha)
            <==> j <= Lead(RecordOf(dir.files)) || Safe(RecordOf(dir.files), op, caps, sha)
  {
    var record := RecordOf(dir.files);
    var all := Publications(record, op, caps, sha);
    if all == [] {
      assert all[..j] == [];
    } else {
      match op
      case Add(name, data) => AddConsistency(dir, name, data, sha, j);
      case Finalize(data) =>
        var a := Describe(FINALIZE, data, sha);
        var finalize := Some(Provenance(Accepted, Some(a)));
        ProvenConsistency(dir, FINALIZE, data, finalize, sha, [Publication(METADATA, Meta(Listed(record, a).(finalize := finalize)))], j);
      case Reject(outcome) => RecordConsistency(dir, record.(finalize := Some(Provenance(outcome, None))), sha, j);
      case Close(state) => RecordConsistency(dir, record.(state := state), sha, j);
    }
  }

  /** After k effects: nothing but a record rewritten as it was has been published yet, or the operation is safe. */
  lemma CrashPoint(dir: Dir, op: Op, caps: Caps, sha: Bytes -> string, k: nat)
    requires Consistent(dir.files, sha) && k <= |Effects(Publications(RecordOf(dir.files), op, caps, sha))|
    ensures Consistent(Crashed(dir, Publications(RecordOf(dir.files), op, caps, sha), k).files, sha)
            <==> k / 2 <= Lead(RecordOf(dir.files)) || Safe(RecordOf(dir.files), op, caps, sha)
  {
    var all := Publications(RecordOf(dir.files), op, caps, sha);
    EffectsCount(all);
    CrashIsAtomic(dir, all, k);
    ConsistentDuring(dir, op, caps, sha, k / 2);
  }

  /** An unsafe operation publishes more than a leading record. */
  lemma UnsafePublishes(record: Record, op: Op, caps: Caps, sha: Bytes -> string)
    requires !Safe(record, op, caps, sha)
    ensures |Publications(record, op, caps, sha)| > Lead(record)
  {
  }

  /** A completed operation leaves a consistent directory exactly when it was safe: no crash is needed to break it. */
  lemma CompletedConsistency(dir: Dir, op: Op, caps: Caps, sha: Bytes -> string)
    requires Consistent(dir.files, sha)
    ensures var all := Publications(RecordOf(dir.files), op, caps, sha);
            Consistent(Crashed(dir, all, |Effects(all)|).files, sha) <==> Safe(RecordOf(dir.files), op, caps, sha)
  {
    var all := Publications(RecordOf(dir.files), op, caps, sha);
    CrashPoint(dir, op, caps, sha, |Effects(all)|);
    EffectsCount(all);
    if !Safe(RecordOf(dir.files), op, caps, sha) { UnsafePublishes(RecordOf(dir.files), op, caps, sha); }
  }

  /**
   * Every directory that a crash can leave is consistent exactly when the
   * operation publishes no listed name with bytes other than the listed ones.
   */
  lemma CrashConsistency(dir: Dir, op: Op, caps: Caps, sha: Bytes -> string)
    requires Consistent(dir.files, sha)
    ensures Safe(RecordOf(dir.files), op, caps, sha) <==>
            forall k :: 0 <= k <= |Effects(Publications(RecordOf(dir.files), op, caps, sha))| ==>
              Consistent(Crashed(dir, Publications(RecordOf(dir.files), op, caps, sha), k).files, sha)
  {
    var all := Publications(RecordOf(dir.files), op, caps, sha);
    forall k | 0 <= k <= |Effects(all)|
      ensures Consistent(Crashed(dir, all, k).files, sha) <==> k / 2 <= Lead(RecordOf(dir.files)) || Safe(RecordOf(dir.files), op, caps, sha)
    {
      CrashPoint(dir, op, caps, sha, k);
    }
    CompletedConsistency(dir, op, caps, sha);
  }

  // ------------------------------------------------------------------
  // Runs
  // ------------------------------------------------------------------

  /** `last` is the output of the last finalize phase, if it was accepted. */
  datatype World = World(dir: Dir, last: Option<Bytes>)

  /** An operation of which k effects take place. */
  datatype Step = Step(op: Op, k: nat)

  predicate Enabled(w: World, step: Step, caps: Caps, sha: Bytes -> string) {
    HasRecord(w.dir.files) && step.k <= |Effects(Publications(RecordOf(w.dir.files), step.op, caps, sha))|
  }

  function Apply(w: World, step: Step, caps: Caps, sha: Bytes -> string): World
    requires Enabled(w, step, caps, sha)
  {
    var all := Publications(RecordOf(w.dir.files), step.op, caps, sha);
    var done := all != [] && step.k == |Effects(all)|;
    World(Crashed(w.dir, all, step.k),
          if done && step.op.Finalize? then Some(step.op.data) else if done && step.op.Reject? then None else w.last)
  }

  ghost predicate StepAt(worlds: seq<World>, steps: seq<Step>, caps: Caps, sha: Bytes -> string, i: nat)
    requires i < |steps| && |worlds| == |steps| + 1
  {
    Enabled(worlds[i], steps[i], caps, sha) && worlds[i + 1] == Apply(worlds[i], steps[i], caps, sha)
  }

  /** A run from a fresh record, through operations that may each die part-way. */
  ghost predicate Run(worlds: seq<World>, steps: seq<Step>, caps: Caps, sha: Bytes -> string) {
    && |worlds| == |steps| + 1
    && worlds[0].last == None && HasRecord(worlds[0].dir.files)
    && RecordOf(worlds[0].dir.files) == Record(Publishing, [], None)
    && forall i :: 0 <= i < |steps| ==> StepAt(worlds, steps, caps, sha, i)
  }

  // ------------------------------------------------------------------
  // What every run keeps
  // ------------------------------------------------------------------

  predicate WithinCaps(record: Record, caps: Caps) {
    && Total(record.artifacts) <= caps.maxBytes
    && forall i :: 0 <= i < |record.artifacts| ==> record.artifacts[i].bytes <= caps.maxFileBytes
  }

  /** The recorded provenance is that of the last finalize output. */
  predicate Proven(record: Record, last: Option<Bytes>, sha: Bytes -> string) {
    if last.Some? then record.finalize == Some(Provenance(Accepted, Some(Describe(FINALIZE, last.value, sha))))
    else record.finalize.Some? ==> record.finalize.value.outcome != Accepted
  }

  /** A record that a step may leave: the old one, or one more artifact, or a new outcome when the step completes. */
  lemma RecordDuring(files: map<string, Content>, op: Op, caps: Caps, sha: Bytes -> string, j: nat)
    requires HasRecord(files) && WithinCaps(RecordOf(files), caps)
    requires j <= |Publications(RecordOf(files), op, caps, sha)|
    ensures var all, after := Publications(RecordOf(files), op, caps, sha), PublishAll(files, Publications(RecordOf(files), op, caps, sha)[..j]);
            && HasRecord(after) && WithinCaps(RecordOf(after), caps)
            && RecordOf(after).finalize ==
               if j < |all| || all == [] then RecordOf(files).finalize
               else match op
                    case Finalize(data) => Some(Provenance(Accepted, Some(Describe(FINALIZE, data, sha))))
                    case Reject(outcome) => Some(Provenance(outcome, None))
                    case _ => RecordOf(files).finalize
  {
    var record := RecordOf(files);
    var all := Publications(record, op, caps, sha);
    if all == [] {
      assert all[..j] == [];
    } else {
      match op
      case Add(name, data) =>
        assert all + [] == all;
        AdditionRecord(files, name, data, [], caps, sha, j);
      case Finalize(data) =>
        var a := Describe(FINALIZE, data, sha);
        AdditionRecord(files, FINALIZE, data,
                       [Publication(METADATA, Meta(Listed(record, a).(finalize := Some(Provenance(Accepted, Some(a))))))], caps, sha, j);
      case Reject(outcome) =>
        OneRecord(files, record.(finalize := Some(Provenance(outcome, None))), j);
      case Close(state) =>
        OneRecord(files, record.(state := state), j);
    }
  }

  lemma OneRecord(files: map<string, Content>, record: Record, j: nat)
    requires HasRecord(files) && j <= 1
    ensures PublishAll(files, [Publication(METADATA, Meta(record))][..j]) == if j == 0 then files else files[METADATA := Meta(record)]
  {
    var all := [Publication(METADATA, Meta(record))];
    assert all[..0] == [];
    if j == 1 {
      PublishPrefix(files, all, 1);
    }
  }

  lemma AdditionRecord(files: map<string, Content>, name: string, data: Bytes, more: seq<Publication>, caps: Caps, sha: Bytes -> string, j: nat)
    requires HasRecord(files) && WithinCaps(RecordOf(files), caps) && Refusal(RecordOf(files), name, data, caps) == None
    requires |more| <= 1
    requires more != [] ==> more[0].name == METADATA && more[0].content.Meta?
    requires more != [] ==> more[0].content.record.artifacts == Listed(RecordOf(files), Describe(name, data, sha)).artifacts
    requires j <= |Addition(RecordOf(files), name, data, sha) + more|
    ensures var all := Addition(RecordOf(files), name, data, sha) + more;
            var after := PublishAll(files, all[..j]);
            && HasRecord(after) && WithinCaps(RecordOf(after), caps)
            && RecordOf(after).finalize == if j == |all| && more != [] then more[0].content.record.finalize else RecordOf(files).finalize
  {
    var all := Addition(RecordOf(files), name, data, sha) + more;
    ListedWithinCaps(RecordOf(files), name, data, caps, sha);
    if j == |all| && more != [] {
      PublishPrefix(files, all, j);
    } else {
      RecordOfAddition(files, name, data, more, sha, j);
    }
  }

  lemma ListedWithinCaps(record: Record, name: string, data: Bytes, caps: Caps, sha: Bytes -> string)
    requires WithinCaps(record, caps) && Refusal(record, name, data, caps) == None
    ensures WithinCaps(Listed(record, Describe(name, data, sha)), caps)
  {
    TotalListed(record, Describe(name, data, sha));
  }

  /** The record that some of an artifact's publications leave. */
  lemma RecordOfAddition(files: map<string, Content>, name: string, data: Bytes, more: seq<Publication>, sha: Bytes -> string, j: nat)
    requires HasRecord(files) && ArtifactName(name) && j <= |Addition(RecordOf(files), name, data, sha)|
    ensures var record, after := RecordOf(files), PublishAll(files, (Addition(RecordOf(files), name, data, sha) + more)[..j]);
            && HasRecord(after)
            && RecordOf(after) == if j == Lead(record) + 2 then Listed(record, Describe(name, data, sha)) else record
  {
    MetadataIsReserved(name);
    AdditionFiles(Dir(files, None), name, data, more, sha, j);
  }

  predicate RunOk(w: World, caps: Caps, sha: Bytes -> string) {
    HasRecord(w.dir.files) && WithinCaps(RecordOf(w.dir.files), caps) && Proven(RecordOf(w.dir.files), w.last, sha)
  }

  lemma StepKeeps(w: World, step: Step, caps: Caps, sha: Bytes -> string, after: World)
    requires Enabled(w, step, caps, sha) && after == Apply(w, step, caps, sha) && RunOk(w, caps, sha)
    ensures RunOk(after, caps, sha)
  {
    var all := Publications(RecordOf(w.dir.files), step.op, caps, sha);
    EffectsCount(all);
    CrashIsAtomic(w.dir, all, step.k);
    RecordDuring(w.dir.files, step.op, caps, sha, step.k / 2);
  }

  lemma StepConsistent(w: World, step: Step, caps: Caps, sha: Bytes -> string, after: World)
    requires Enabled(w, step, caps, sha) && after == Apply(w, step, caps, sha)
    requires Consistent(w.dir.files, sha) && Safe(RecordOf(w.dir.files), step.op, caps, sha)
    ensures Consistent(after.dir.files, sha)
  {
    CrashConsistency(w.dir, step.op, caps, sha);
  }

  lemma {:induction false} RunKeeps(worlds: seq<World>, steps: seq<Step>, caps: Caps, sha: Bytes -> string, n: nat)
    requires Run(worlds, steps, caps, sha) && n < |worlds|
    ensures RunOk(worlds[n], caps, sha)
  {
    if n > 0 {
      RunKeeps(worlds, steps, caps, sha, n - 1);
      KeptAt(worlds, steps, caps, sha, n - 1);
    } else {
      FreshIsOk(worlds[0], caps, sha);
    }
  }

  lemma FreshIsOk(w: World, caps: Caps, sha: Bytes -> string)
    requires w.last == None && HasRecord(w.dir.files) && RecordOf(w.dir.files) == Record(Publishing, [], None)
    ensures RunOk(w, caps, sha)
  {
  }

  lemma KeptAt(worlds: seq<World>, steps: seq<Step>, caps: Caps, sha: Bytes -> string, i: nat)
    requires i < |steps| && |worlds| == |steps| + 1 && StepAt(worlds, steps, caps, sha, i) && RunOk(worlds[i], caps, sha)
    ensures RunOk(worlds[i + 1], caps, sha)
  {
    StepKeeps(worlds[i], steps[i], caps, sha, worlds[i + 1]);
  }

  /** The step publishes no listed name with other bytes. */
  ghost predicate SafeAt(worlds: seq<World>, steps: seq<Step>, caps: Caps, sha: Bytes -> string, i: nat)
    requires i < |steps| && |worlds| == |steps| + 1
  {
    HasRecord(worlds[i].dir.files) && Safe(RecordOf(worlds[i].dir.files), steps[i].op, caps, sha)
  }

  /**
   * Over any run and any crashes in which no operation publishes a listed name
   * with other bytes, the record lists only artifacts that are on disk in full.
   */
  lemma {:induction false} RunStaysConsistent(worlds: seq<World>, steps: seq<Step>, caps: Caps, sha: Bytes -> string, n: nat)
    requires Run(worlds, steps, caps, sha) && n < |worlds|
    requires forall i :: 0 <= i < n ==> SafeAt(worlds, steps, caps, sha, i)
    ensures Consistent(worlds[n].dir.files, sha)
  {
    if n > 0 {
      RunStaysConsistent(worlds, steps, caps, sha, n - 1);
      assert StepAt(worlds, steps, caps, sha, n - 1) && SafeAt(worlds, steps, caps, sha, n - 1);
      StepConsistent(worlds[n - 1], steps[n - 1], caps, sha, worlds[n]);
    }
  }

  /** Recorded totals never exceed the caps, whatever crashes and whatever is published again. */
  lemma TotalsWithinCaps(worlds: seq<World>, steps: seq<Step>, caps: Caps, sha: Bytes -> string, n: nat)
    requires Run(worlds, steps, caps, sha) && n < |worlds|
    ensures HasRecord(worlds[n].dir.files) && Total(RecordOf(worlds[n].dir.files).artifacts) <= caps.maxBytes
    ensures forall a <- RecordOf(worlds[n].dir.files).artifacts :: a.bytes <= caps.maxFileBytes
  {
    RunKeeps(worlds, steps, caps, sha, n);
  }

  /**
   * Over any run and any crashes, the persist operation hands on only bytes of
   * the length and digest of the last finalize output, and only while that
   * finalize phase was accepted.
   */
  lemma PersistsOnlyLastAccepted(worlds: seq<World>, steps: seq<Step>, caps: Caps, sha: Bytes -> string, n: nat, ref: string, bytes: Bytes)
    requires Run(worlds, steps, caps, sha) && n < |worlds|
    requires Persist(worlds[n].dir, ref, caps, sha) == Success(bytes)
    ensures ref == FINALIZE && worlds[n].last.Some?
    ensures |bytes| == |worlds[n].last.value| && sha(bytes) == sha(worlds[n].last.value)
  {
    RunKeeps(worlds, steps, caps, sha, n);
  }

  lemma ProvenFiles(dir: Dir, name: string, data: Bytes, final: Record, sha: Bytes -> string)
    requires HasRecord(dir.files) && ArtifactName(name)
    ensures var all := Addition(RecordOf(dir.files), name, data, sha) + [Publication(METADATA, Meta(final))];
            && PublishAll(dir.files, all) == dir.files[name := Data(data)][METADATA := Meta(final)]
            && name != METADATA
  {
    var last := [Publication(METADATA, Meta(final))];
    var all := Addition(RecordOf(dir.files), name, data, sha) + last;
    MetadataIsReserved(name);
    assert all[..|all|] == all;
    AdditionFiles(dir, name, data, last, sha, |all| - 1);
    PublishPrefix(dir.files, all, |all|);
    TwoRecords(dir.files[name := Data(data)], Listed(RecordOf(dir.files), Describe(name, data, sha)), final);
  }

  /** A finalize phase that completes can be persisted at once. */
  lemma FinalizePersists(w: World, data: Bytes, caps: Caps, sha: Bytes -> string, k: nat, after: World)
    requires HasRecord(w.dir.files) && Refusal(RecordOf(w.dir.files), FINALIZE, data, caps) == None
    requires k == |Effects(Publications(RecordOf(w.dir.files), Finalize(data), caps, sha))|
    requires after == Apply(w, Step(Finalize(data), k), caps, sha)
    ensures Persist(after.dir, FINALIZE, caps, sha) == Success(data)
  {
    var record, a := RecordOf(w.dir.files), Describe(FINALIZE, data, sha);
    var final := Listed(record, a).(finalize := Some(Provenance(Accepted, Some(a))));
    Completed(w.dir, Publications(record, Finalize(data), caps, sha), k);
    ProvenFiles(w.dir, FINALIZE, data, final, sha);
    PersistReads(after.dir, w.dir.files, FINALIZE, data, final, caps, sha);
  }

  lemma Completed(dir: Dir, publications: seq<Publication>, k: nat)
    requires k == |Effects(publications)|
    ensures Crashed(dir, publications, k).files == PublishAll(dir.files, publications)
  {
    EffectsCount(publications);
    CrashIsAtomic(dir, publications, k);
    assert publications[..k / 2] == publications;
  }

  lemma PersistReads(dir: Dir, files: map<string, Content>, name: string, data: Bytes, final: Record, caps: Caps, sha: Bytes -> string)
    requires name != METADATA && dir.files == files[name := Data(data)][METADATA := Meta(final)] && |data| <= caps.maxFileBytes
    requires final.finalize == Some(Provenance(Accepted, Some(Describe(name, data, sha))))
    ensures Persist(dir, name, caps, sha) == Success(data)
  {
  }

  // ------------------------------------------------------------------
  // The writer
  // ------------------------------------------------------------------

  class ReviewRunWriter {
    var files: map<string, Content>
    var record: Record
    var totalBytes: nat
    const caps: Caps
    const sha: Bytes -> string

    ghost predicate Valid()
      reads this
    {
      HasRecord(files) && RecordOf(files) == record && totalBytes == Total(record.artifacts)
    }

    constructor (files: map<string, Content>, record: Record, caps: Caps, sha: Bytes -> string)
      ensures Valid() && this.caps == caps && this.sha == sha
      ensures this.record == record.(state := Publishing)
      ensures this.files == PublishAll(files, [Publication(METADATA, Meta(this.record))])
    {
      this.caps := caps;
      this.sha := sha;
      this.record := record.(state := Publishing);
      totalBytes := Total(record.artifacts);
      this.files := files[METADATA := Meta(record.(state := Publishing))];
      new;
      assert this.files == PublishAll(files, [Publication(METADATA, Meta(this.record))]) by {
        OneMore(files, METADATA, Meta(this.record));
      }
    }

    method AddArtifact(name: string, data: Bytes) returns (result: Result<Artifact, RunError>)
      requires Valid()
      modifies this
      ensures Valid()
      ensures result.Success? <==> old(record).state == Publishing && Refusal(old(record), name, data, caps) == None
      ensures result.Success? ==> result.value == Describe(name, data, sha) && record == Listed(old(record), result.value)
      ensures result.Success? ==> files == PublishAll(old(files), Addition(old(record), name, data, sha))
      ensures result.Failure? ==> files == old(files) && record == old(record)
    {
      if !ArtifactName(name) {
        return Failure(BadName);
      }
      if record.state != Publishing {
        return Failure(BadState);
      }
      if |data| > caps.maxFileBytes {
        return Failure(FileCap);
      }
      var total := totalBytes + |data|;
      if total > caps.maxBytes {
        return Failure(RunCap);
      }
      var artifact := Describe(name, data, sha);
      var listed := Listed(record, artifact);
      AdditionDone(files, name, data, sha);
      TotalListed(record, artifact);
      var published := files[name := Data(data)];
      files, record, totalBytes := published[METADATA := Meta(listed)], listed, total;
      result := Success(artifact);
    }

    method Persist(state: RunState)
      requires Valid()
      modifies this
      ensures Valid() && record == old(record).(state := state)
      ensures files == PublishAll(old(files), [Publication(METADATA, Meta(record))])
    {
      record := record.(state := state);
      OneMore(files, METADATA, Meta(record));
      files := files[METADATA := Meta(record)];
    }
  }

  lemma AdditionDone(files: map<string, Content>, name: string, data: Bytes, sha: Bytes -> string)
    requires HasRecord(files) && RecordOf(files).state == Publishing
    ensures PublishAll(files, Addition(RecordOf(files), name, data, sha)) ==
            files[name := Data(data)][METADATA := Meta(Listed(RecordOf(files), Describe(name, data, sha)))]
    ensures var after := PublishAll(files, Addition(RecordOf(files), name, data, sha));
            HasRecord(after) && RecordOf(after) == Listed(RecordOf(files), Describe(name, data, sha))
  {
    var all := Addition(RecordOf(files), name, data, sha);
    assert all + [] == all && all[..3] == all;
    AdditionFiles(Dir(files, None), name, data, [], sha, 3);
  }

  lemma TotalListed(record: Record, a: Artifact)
    ensures Total(Listed(record, a).artifacts) == Total(record.artifacts) + a.bytes
  {
    assert Listed(record, a).artifacts[..|record.artifacts|] == record.artifacts;
  }

  lemma OneMore(files: map<string, Content>, name: string, content: Content)
    ensures PublishAll(files, [Publication(name, content)]) == files[name := content]
  {
    assert [Publication(name, content)][1..] == [];
  }
}
