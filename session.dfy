/**
 * The conversation session store (src/session.rs): sessions kept in memory by
 * key, loaded at start-up from the `.json` files of the sessions directory
 * (the latest copy of each key wins), created on first use, and written back
 * through a temporary file that is renamed over the target.
 *
 * Timestamps are integers ordered as `DateTime` values are; the clock, JSON
 * (de)serialization and the hash behind file names are parameters.
 */
module Sessions {
  import opened Wrappers
  import opened Text
  import Llm

  datatype Session = Session(key: string, messages: seq<Llm.Message>, summary: Option<string>, updatedAt: int)

  /** One entry of the sessions directory, as `read_dir` yields it. */
  datatype DirEntry = DirEntry(name: string, content: string)

  // ------------------------------------------------------------ file names

  const TwoTo64: nat := 0x1_0000_0000_0000_0000

  function HexDigit(d: nat): (c: char)
    requires d < 16
    ensures '0' <= c <= '9' || 'a' <= c <= 'f'
  {
    if d < 10 then ('0' as int + d) as char else ('a' as int + d - 10) as char
  }

  function Pow16(k: nat): (r: nat)
    ensures r > 0
  {
    if k == 0 then 1 else 16 * Pow16(k - 1)
  }

  /** The last `k` hexadecimal digits of `n`, zero-padded (`{:0k$x}` for n < 16^k). */
  function Hex(n: nat, k: nat): (r: string)
    ensures |r| == k
    ensures forall i :: 0 <= i < k ==> '0' <= r[i] <= '9' || 'a' <= r[i] <= 'f'
  {
    if k == 0 then "" else Hex(n / 16, k - 1) + [HexDigit(n % 16)]
  }

  /** Below 16^k, distinct numbers have distinct k-digit renderings. */
  lemma {:induction false} HexInjective(n: nat, m: nat, k: nat)
    requires n < Pow16(k) && m < Pow16(k)
    requires Hex(n, k) == Hex(m, k)
    ensures n == m
  {
    if k > 0 {
      var a, b := Hex(n, k), Hex(m, k);
      assert a[..k - 1] == Hex(n / 16, k - 1);
      assert b[..k - 1] == Hex(m / 16, k - 1);
      assert HexDigit(n % 16) == a[k - 1] == b[k - 1] == HexDigit(m % 16);
      assert n % 16 == m % 16;
      HexInjective(n / 16, m / 16, k - 1);
    }
  }

  lemma Pow16Of16()
    ensures Pow16(16) == TwoTo64
  {
    assert Pow16(4) == 0x1_0000;
    assert Pow16(8) == 0x1_0000_0000;
    assert Pow16(12) == 0x1_0000_0000_0000;
  }

  /** `format!("{:016x}", hash(key))` for a 64-bit hash. */
  function SessionFilename(hash: string -> nat, key: string): (r: string)
    ensures |r| == 16
    ensures forall i :: 0 <= i < |r| ==> r[i] != '.' && r[i] != '/'
  {
    Hex(hash(key) % TwoTo64, 16)
  }

  /**
   * The file name is a function of the key alone; two keys whose 64-bit
   * hashes differ get different file names.
   */
  lemma FilenamesDistinct(hash: string -> nat, a: string, b: string)
    requires hash(a) % TwoTo64 != hash(b) % TwoTo64
    ensures SessionFilename(hash, a) != SessionFilename(hash, b)
  {
    Pow16Of16();
    if SessionFilename(hash, a) == SessionFilename(hash, b) {
      HexInjective(hash(a) % TwoTo64, hash(b) % TwoTo64, 16);
    }
  }

  /** The unit test of the source, under its own premise that the two hashes differ. */
  lemma FilenameTestKeys(hash: string -> nat)
    requires hash("slack:user1") % TwoTo64 != hash("slack_user1") % TwoTo64
    ensures SessionFilename(hash, "slack:user1") != SessionFilename(hash, "slack_user1")
    ensures SessionFilename(hash, "test:key") == SessionFilename(hash, "test:key")
  {
    FilenamesDistinct(hash, "slack:user1", "slack_user1");
  }

  function TargetName(hash: string -> nat, key: string): string {
    SessionFilename(hash, key) + ".json"
  }

  function TmpName(hash: string -> nat, key: string): string {
    SessionFilename(hash, key) + ".json.tmp"
  }

  /** Naming a file `<f>.json` and its temporary copy `<f>.json.tmp`. */
  lemma JsonAndTmpExtensions(f: string)
    requires f != []
    ensures Extension(f + ".json") == Some("json")
    ensures Extension(f + ".json.tmp") == Some("tmp")
  {
    StemAndExtension(f, "json");
    assert f + ".json" == f + "." + "json";
    StemAndExtension(f + ".json", "tmp");
    assert f + ".json.tmp" == (f + ".json") + "." + "tmp";
  }

  /** The target is read back as a session file; a left-over temporary file is skipped on load. */
  lemma SaveNamesOnLoad(hash: string -> nat, key: string)
    ensures Extension(TargetName(hash, key)) == Some("json")
    ensures Extension(TmpName(hash, key)) == Some("tmp")
  {
    JsonAndTmpExtensions(SessionFilename(hash, key));
  }

  // ------------------------------------------------------------ loading

  /** The session an entry holds, if it is a `.json` file that parses. */
  function Parsed(e: DirEntry, parse: string -> Option<Session>): Option<Session> {
    if Extension(e.name) == Some("json") then parse(e.content) else None
  }

  /** One iteration of the load loop: a strictly later copy replaces the stored one. */
  function LoadStep(sessions: map<string, Session>, e: DirEntry, parse: string -> Option<Session>): map<string, Session> {
    match Parsed(e, parse)
    case None => sessions
    case Some(s) =>
      if s.key in sessions then
        if s.updatedAt > sessions[s.key].updatedAt then sessions[s.key := s] else sessions
      else sessions[s.key := s]
  }

  /** The sessions after reading the entries in directory order. */
  function Load(entries: seq<DirEntry>, parse: string -> Option<Session>): map<string, Session>
    decreases |entries|
  {
    if entries == [] then map[] else LoadStep(Load(entries[..|entries| - 1], parse), entries[|entries| - 1], parse)
  }

  /** Entry `i` is a session file holding a session with key `k`. */
  predicate HoldsKey(entries: seq<DirEntry>, parse: string -> Option<Session>, i: int, k: string) {
    0 <= i < |entries| && Parsed(entries[i], parse).Some? && Parsed(entries[i], parse).value.key == k
  }

  /**
   * The session kept for `k` is the copy of entry `i`: no copy is later than
   * it, and every copy read before it is strictly earlier.
   */
  ghost predicate KeptFrom(entries: seq<DirEntry>, parse: string -> Option<Session>, k: string, i: int, s: Session) {
    && HoldsKey(entries, parse, i, k)
    && s == Parsed(entries[i], parse).value
    && (forall j :: HoldsKey(entries, parse, j, k) ==> Parsed(entries[j], parse).value.updatedAt <= s.updatedAt)
    && (forall j :: 0 <= j < i && HoldsKey(entries, parse, j, k) ==> Parsed(entries[j], parse).value.updatedAt < s.updatedAt)
  }

  /** What one step of the load does to the session kept for `k`. */
  lemma LoadStepAt(sessions: map<string, Session>, e: DirEntry, parse: string -> Option<Session>, k: string)
    ensures var p := Parsed(e, parse); var r := LoadStep(sessions, e, parse);
      (p.None? || p.value.key != k) ==> (k in r <==> k in sessions) && (k in sessions ==> r[k] == sessions[k])
    ensures var p := Parsed(e, parse); var r := LoadStep(sessions, e, parse);
      p.Some? && p.value.key == k ==>
        k in r && r[k] == (if k in sessions && p.value.updatedAt <= sessions[k].updatedAt then sessions[k] else p.value)
  {
  }

  lemma HoldsKeyPrefix(entries: seq<DirEntry>, parse: string -> Option<Session>, k: string)
    requires entries != []
    ensures forall j :: 0 <= j < |entries| - 1 ==> HoldsKey(entries[..|entries| - 1], parse, j, k) == HoldsKey(entries, parse, j, k)
  {
  }

  /** Loading keeps exactly the keys found in a parsable `.json` file. */
  lemma {:induction false} LoadKeys(entries: seq<DirEntry>, parse: string -> Option<Session>, k: string)
    ensures k in Load(entries, parse) <==> exists i :: HoldsKey(entries, parse, i, k)
    decreases |entries|
  {
    if entries != [] {
      var n := |entries| - 1;
      var init, e := entries[..n], entries[n];
      LoadKeys(init, parse, k);
      HoldsKeyPrefix(entries, parse, k);
      LoadStepAt(Load(init, parse), e, parse, k);
      if exists j :: HoldsKey(entries, parse, j, k) {
        var j :| HoldsKey(entries, parse, j, k);
        if j < n {
          assert HoldsKey(init, parse, j, k);
        }
      }
      if k in Load(init, parse) {
        var j :| HoldsKey(init, parse, j, k);
        assert HoldsKey(entries, parse, j, k);
      }
      if HoldsKey(entries, parse, n, k) {
        assert k in Load(entries, parse);
      }
    }
  }

  /** A kept copy stays kept when the next entry is not a strictly later copy. */
  lemma KeptExtend(entries: seq<DirEntry>, parse: string -> Option<Session>, k: string, i: int, s: Session)
    requires entries != []
    requires KeptFrom(entries[..|entries| - 1], parse, k, i, s)
    requires !HoldsKey(entries, parse, |entries| - 1, k) || Parsed(entries[|entries| - 1], parse).value.updatedAt <= s.updatedAt
    ensures KeptFrom(entries, parse, k, i, s)
  {
    var n := |entries| - 1;
    HoldsKeyPrefix(entries, parse, k);
    forall j | HoldsKey(entries, parse, j, k)
      ensures Parsed(entries[j], parse).value.updatedAt <= s.updatedAt
    {
      if j < n {
        assert HoldsKey(entries[..n], parse, j, k);
      }
    }
  }

  /** The last entry's copy is kept when every earlier copy is strictly earlier. */
  lemma KeptLast(entries: seq<DirEntry>, parse: string -> Option<Session>, k: string)
    requires entries != [] && HoldsKey(entries, parse, |entries| - 1, k)
    requires forall j :: HoldsKey(entries[..|entries| - 1], parse, j, k) ==>
      Parsed(entries[j], parse).value.updatedAt < Parsed(entries[|entries| - 1], parse).value.updatedAt
    ensures KeptFrom(entries, parse, k, |entries| - 1, Parsed(entries[|entries| - 1], parse).value)
  {
    var n := |entries| - 1;
    HoldsKeyPrefix(entries, parse, k);
    forall j | 0 <= j < n && HoldsKey(entries, parse, j, k)
      ensures Parsed(entries[j], parse).value.updatedAt < Parsed(entries[n], parse).value.updatedAt
    {
      assert HoldsKey(entries[..n], parse, j, k);
    }
  }

  /**
   * The session kept for a key is the first of its latest copies: a copy
   * replaces the kept one only when strictly later.
   */
  lemma {:induction false} LoadKeepsLatest(entries: seq<DirEntry>, parse: string -> Option<Session>, k: string)
    requires k in Load(entries, parse)
    ensures exists i :: KeptFrom(entries, parse, k, i, Load(entries, parse)[k])
    decreases |entries|
  {
    var n := |entries| - 1;
    assert entries != [];
    var init, e := entries[..n], entries[n];
    var prev := Load(init, parse);
    LoadStepAt(prev, e, parse, k);
    var p := Parsed(e, parse);
    if k in prev {
      LoadKeepsLatest(init, parse, k);
      var i :| KeptFrom(init, parse, k, i, prev[k]);
      if p.Some? && p.value.key == k && p.value.updatedAt > prev[k].updatedAt {
        forall j | HoldsKey(init, parse, j, k)
          ensures Parsed(entries[j], parse).value.updatedAt < p.value.updatedAt
        {
          assert init[j] == entries[j];
        }
        KeptLast(entries, parse, k);
      } else {
        KeptExtend(entries, parse, k, i, prev[k]);
      }
    } else {
      LoadKeys(init, parse, k);
      KeptLast(entries, parse, k);
    }
  }

  /** Files that are not `.json`, or do not parse, leave the loaded sessions unchanged. */
  lemma SkippedEntries(entries: seq<DirEntry>, e: DirEntry, parse: string -> Option<Session>)
    requires Extension(e.name) != Some("json") || parse(e.content).None?
    ensures Load(entries + [e], parse) == Load(entries, parse)
  {
    assert (entries + [e])[..|entries|] == entries;
  }

  // ------------------------------------------------------------ the store

  /** The directory the entries list: each name holds its contents. */
  function DirOf(entries: seq<DirEntry>): (r: map<string, string>)
    ensures forall e :: e in entries ==> e.name in r
    ensures forall n :: n in r ==> exists e :: e in entries && e.name == n && r[n] == e.content
  {
    if entries == [] then map[]
    else
      var init, e := entries[..|entries| - 1], entries[|entries| - 1];
      assert forall x :: x in init ==> x in entries;
      DirOf(init)[e.name := e.content]
  }

  /**
   * How the file-system calls of save_to_disk turn out. A failed write may
   * leave a partial temporary file, or none at all when the directory or
   * the file could not be created.
   */
  datatype SaveOutcome = Saved | WriteFailed(partial: Option<string>) | RenameFailed

  /** The loop of SessionStore::new: each parsable .json entry kept unless a newer session has the same key. */
  method LoadEntries(entries: seq<DirEntry>, parse: string -> Option<Session>) returns (loaded: map<string, Session>)
    ensures loaded == Load(entries, parse)
  {
    loaded := map[];
    var i := 0;
    while i < |entries|
      invariant 0 <= i <= |entries|
      invariant loaded == Load(entries[..i], parse)
    {
      assert entries[..i + 1][..i] == entries[..i];
      var e := entries[i];
      ghost var next := LoadStep(loaded, e, parse);
      if Extension(e.name) == Some("json") {
        match parse(e.content) {
          case Some(s) =>
            if s.key in loaded {
              if s.updatedAt > loaded[s.key].updatedAt {
                loaded := loaded[s.key := s];
              }
            } else {
              loaded := loaded[s.key := s];
            }
          case None =>
        }
      }
      assert loaded == next;
      i := i + 1;
    }
    assert entries[..i] == entries;
  }

  class SessionStore {
    var sessions: map<string, Session>
    /** The sessions directory: file name to contents. */
    var dir: map<string, string>
    const hash: string -> nat
    const serialize: Session -> string

    /** SessionStore::new over the directory as `read_dir` lists it. */
    constructor (entries: seq<DirEntry>, parse: string -> Option<Session>, hash: string -> nat, serialize: Session -> string)
      ensures sessions == Load(entries, parse)
      ensures dir == DirOf(entries)
      ensures this.hash == hash && this.serialize == serialize
    {
      var loaded := LoadEntries(entries, parse);
      sessions := loaded;
      dir := DirOf(entries);
      this.hash := hash;
      this.serialize := serialize;
    }

    /** get_or_create with the current time passed in as `now`. */
    method GetOrCreate(key: string, now: int) returns (s: Session)
      modifies this
      ensures key in old(sessions) ==> s == old(sessions)[key] && sessions == old(sessions)
      ensures key !in old(sessions) ==> s == Session(key, [], None, now) && sessions == old(sessions)[key := s]
      ensures s.key == key || key in old(sessions)
      ensures dir == old(dir)
    {
      if key !in sessions {
        sessions := sessions[key := Session(key, [], None, now)];
      }
      s := sessions[key];
    }

    /**
     * save_to_disk: the JSON goes to the temporary file, which is then renamed
     * over the target; the target holds either its old contents or the whole
     * new JSON.
     */
    method SaveToDisk(key: string, session: Session, outcome: SaveOutcome) returns (r: Result<(), string>)
      modifies this
      ensures sessions == old(sessions)
      ensures r.Ok? <==> outcome.Saved?
      ensures outcome.Saved? ==> dir == (old(dir) - {TmpName(hash, key)})[TargetName(hash, key) := serialize(session)]
      ensures outcome.WriteFailed? && outcome.partial.None? ==> dir == old(dir)
      ensures outcome.WriteFailed? && outcome.partial.Some? ==> dir == old(dir)[TmpName(hash, key) := outcome.partial.value]
      ensures outcome.RenameFailed? ==> dir == old(dir)[TmpName(hash, key) := serialize(session)]
      ensures var target := TargetName(hash, key);
        (target in dir && dir[target] == serialize(session))
        || ((target in dir <==> target in old(dir)) && (target in dir ==> dir[target] == old(dir)[target]))
    {
      var tmp := TmpName(hash, key);
      var target := TargetName(hash, key);
      assert tmp != target by {
        assert |tmp| != |target|;
      }
      var json := serialize(session);
      match outcome {
        case WriteFailed(partial) =>
          if partial.Some? {
            dir := dir[tmp := partial.value];
          }
          r := Err("write failed: " + tmp);
        case RenameFailed =>
          dir := dir[tmp := json];
          r := Err("rename failed: " + tmp);
        case Saved =>
          dir := dir[tmp := json];
          dir := (dir - {tmp})[target := dir[tmp]];
          r := Ok(());
      }
    }

    /** update_and_save: the in-memory update happens first and survives a failed save. */
    method UpdateAndSave(key: string, session: Session, outcome: SaveOutcome) returns (r: Result<(), string>)
      modifies this
      ensures sessions == old(sessions)[key := session]
      ensures r.Ok? <==> outcome.Saved?
      ensures outcome.Saved? ==> dir == (old(dir) - {TmpName(hash, key)})[TargetName(hash, key) := serialize(session)]
      ensures outcome.WriteFailed? && outcome.partial.None? ==> dir == old(dir)
      ensures outcome.WriteFailed? && outcome.partial.Some? ==> dir == old(dir)[TmpName(hash, key) := outcome.partial.value]
      ensures outcome.RenameFailed? ==> dir == old(dir)[TmpName(hash, key) := serialize(session)]
      ensures var target := TargetName(hash, key);
        (target in dir && dir[target] == serialize(session))
        || ((target in dir <==> target in old(dir)) && (target in dir ==> dir[target] == old(dir)[target]))
    {
      sessions := sessions[key := session];
      r := SaveToDisk(key, sessions[key], outcome);
    }
  }
}
