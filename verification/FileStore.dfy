/** What the artifact store holds, and what can be read from it. */
module FileStore {
  import opened Options

  newtype Byte = x: int | 0 <= x < 256
  type Bytes = seq<Byte>

  /** A directory entry: a regular file, or a link and the size of the file it leads to. */
  datatype Node<T> = File(content: T, mtime: int) | Link(target: Option<nat>)

  /** What a manifest says; `info` stands for the filename, MIME type and source. */
  datatype Descriptor = Malformed | Descriptor(id: string, size: nat, digest: nat, info: nat)

  datatype Stage =
    | StageLink
    | StageDir(data: map<string, Node<Bytes>>, manifests: map<string, Node<Descriptor>>, mtime: int)

  datatype Store = Store(
    staging: map<string, Stage>,
    files: map<string, Node<Bytes>>,
    manifests: map<string, Node<Descriptor>>,
    legacy: map<string, Node<Bytes>>)

  datatype Settings = Settings(
    maxBytes: nat,
    maxExecutionBytes: nat,
    maxFiles: nat,
    fileTtl: nat,
    artifactsTtl: nat,
    executionTimeout: nat,
    hash: Bytes -> nat)

  datatype Outcome<T> = Ok(value: T) | Failed

  // ------------------------------------------------------------------------ names

  predicate Alphanumeric(c: char) {
    'A' <= c <= 'Z' || 'a' <= c <= 'z' || '0' <= c <= '9'
  }

  predicate ValidId(id: string) {
    && 1 <= |id| <= 200
    && Alphanumeric(id[0])
    && (forall i :: 1 <= i < |id| ==> Alphanumeric(id[i]) || id[i] == '_' || id[i] == '.' || id[i] == '-')
    && (forall i :: 0 <= i < |id| - 1 ==> !(id[i] == '.' && id[i + 1] == '.'))
  }

  predicate ValidExecution(id: string) {
    |id| == 32 && forall i :: 0 <= i < 32 ==> 'a' <= id[i] <= 'f' || '0' <= id[i] <= '9'
  }

  /** The staging directory of an execution can be named, and is not a link. */
  predicate StageOk(s: Store, execution: string) {
    ValidExecution(execution) && (execution in s.staging ==> s.staging[execution].StageDir?)
  }

  /** The stage as it is, or as it is once its directory has been made. */
  function StageOf(s: Store, execution: string, now: int): (r: Stage)
    requires StageOk(s, execution)
    ensures r.StageDir?
  {
    if execution in s.staging then s.staging[execution] else StageDir(map[], map[], now)
  }

  // ---------------------------------------------------------------------- reading

  datatype Lookup =
    | Refused
    | Missing
    | Found(content: Bytes, mtime: int, published: bool)

  predicate IsFile<T>(m: map<string, Node<T>>, id: string) {
    id in m && m[id].File?
  }

  predicate IsLink<T>(m: map<string, Node<T>>, id: string) {
    id in m && m[id].Link?
  }

  /** Looking an artifact up: a published one through its manifest until it expires, an
      older one directly. */
  function Path(g: Settings, s: Store, id: string, now: int): Lookup {
    if !ValidId(id) || IsLink(s.manifests, id) then Refused
    else if IsFile(s.manifests, id) then
      if !IsFile(s.files, id) || now >= s.files[id].mtime + g.fileTtl then Missing
      else Found(s.files[id].content, s.files[id].mtime, true)
    else if IsFile(s.legacy, id) then Found(s.legacy[id].content, s.legacy[id].mtime, false)
    else Missing
  }

  datatype Description = Description(descriptor: Descriptor, ttl: nat, modified: int, expires: int)

  /** An older artifact is described by its own bytes. */
  function LegacyDescriptor(g: Settings, id: string, content: Bytes): Descriptor {
    Descriptor(id, |content|, g.hash(content), 0)
  }

  function Describe(g: Settings, s: Store, id: string, now: int): Outcome<Description> {
    match Path(g, s, id, now)
    case Refused => Failed
    case Missing => Failed
    case Found(content, mtime, published) =>
      if published then
        var d := s.manifests[id].content;
        if d.Malformed? then Failed else Ok(Description(d, g.fileTtl, mtime, mtime + g.fileTtl))
      else
        Ok(Description(LegacyDescriptor(g, id, content), g.artifactsTtl, mtime, mtime + g.artifactsTtl))
  }

  // ------------------------------------------------------------------------- laws

  /** The codes of letters and digits. */
  predicate LetterOrDigit(n: int) { 48 <= n < 58 || 65 <= n < 91 || 97 <= n < 123 }

  /** What a valid id is made of, sign by sign: hyphen, dot and underscore besides letters and
      digits, none of them at the front, and no two dots in a row. */
  lemma ValidIdExactly(id: string)
    ensures ValidId(id) <==>
      && id != "" && |id| < 201 && LetterOrDigit(id[0] as int)
      && (forall i :: 0 <= i < |id| ==> LetterOrDigit(id[i] as int) || id[i] as int in {45, 46, 95})
      && forall i, j :: 0 <= i < j < |id| && id[i] == '.' && id[j] == '.' ==> i + 1 < j
  {
  }

  /** A name with nothing in it that leads out of a directory. */
  ghost predicate Harmless(id: string) {
    && '/' !in id && '\\' !in id && 0 as char !in id
    && (forall i, j :: 0 <= i < j < |id| && j == i + 1 ==> id[i] != '.' || id[j] != '.')
    && id != "" && id[0] != '.' && id[0] != '-'
  }

  lemma ValidIdsAreHarmless(id: string)
    requires ValidId(id)
    ensures Harmless(id) && |id| <= 200
  {
    assert forall i :: 0 <= i < |id| ==> Alphanumeric(id[i]) || id[i] == '_' || id[i] == '.' || id[i] == '-';
  }

  predicate HexDigit(c: char) { '0' <= c <= '9' || 'a' <= c <= 'f' }

  predicate LowerAlphanumeric(c: char) { '0' <= c <= '9' || 'a' <= c <= 'z' }

  /** An id as `save` makes it: 32 hexadecimal digits, and a short file extension if any. */
  ghost predicate MadeBySave(id: string) {
    && 37 <= |id| <= 50 && id[..5] == "file-" && (forall i :: 5 <= i < 37 ==> HexDigit(id[i]))
    && (|id| > 37 ==> |id| > 38 && id[37] == '.' && forall i :: 38 <= i < |id| ==> LowerAlphanumeric(id[i]))
  }

  /** Every id that `save` makes can be published and read. */
  lemma SavedIdsAreValid(id: string)
    requires MadeBySave(id)
    ensures ValidId(id)
  {
    var head := id[..5];
    assert forall i :: 0 <= i < 5 ==> id[i] == head[i];
  }

  /** An execution is named by exactly 32 hexadecimal digits, in lower case. */
  lemma ExecutionNames(id: string)
    ensures ValidExecution(id) <==> |id| == 32 && forall i :: 0 <= i < |id| ==> HexDigit(id[i])
  {
  }

  /** A name that is refused, and one whose manifest is a link, are never looked up; without a
      manifest an older file of that name is found, whatever its age, and is described by its
      own bytes and kept for as long as those are. */
  lemma OlderFilesDescribed(g: Settings, s: Store, id: string, now: int)
    ensures !ValidId(id) ==> Path(g, s, id, now) == Refused && Describe(g, s, id, now) == Failed
    ensures ValidId(id) && id in s.manifests && s.manifests[id].Link? ==> Path(g, s, id, now) == Refused
    ensures ValidId(id) && id !in s.manifests && id in s.legacy && s.legacy[id].File? ==>
      var f := s.legacy[id];
      && Path(g, s, id, now) == Found(f.content, f.mtime, false)
      && Describe(g, s, id, now) ==
         Ok(Description(Descriptor(id, |f.content|, g.hash(f.content), 0), g.artifactsTtl, f.mtime, f.mtime + g.artifactsTtl))
    ensures ValidId(id) && id !in s.manifests && !(id in s.legacy && s.legacy[id].File?) ==>
      Path(g, s, id, now) == Missing && Describe(g, s, id, now) == Failed
  {
  }
}
