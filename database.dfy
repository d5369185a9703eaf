/**
 * The database handle: where the database file is looked for, how an
 * open failure is classified, and how `refresh` replaces the handle
 * state of an execution context.
 */
module Database {
  import opened Wrappers

  /** An opened, read-only maxminddb reader; its contents are not modelled. */
  datatype Reader = Reader(id: nat)

  datatype DBError =
    | Internal(detail: string)   // an engine error, shown by its own message
    | NotInstalled

  const PRIMARY_PATH: string := "garrysmod/maxminddb.mmdb"
  const FALLBACK_PATH: string := "garrysmod/data/maxminddb.dat"

  /** The first sentence of the not-installed text, and where it sends the user. */
  const NOT_INSTALLED_HEADLINE: string := "You didn't install the MaxMindDB database!"
  const MAXMIND_URL: string := "https://maxmind.com"

  /** The `NotInstalled` text, which spells out the two paths. */
  const NOT_INSTALLED_MESSAGE: string :=
    NOT_INSTALLED_HEADLINE + " I expected to find one in " + PRIMARY_PATH + " or " + FALLBACK_PATH
    + ", you can get it from here: " + MAXMIND_URL

  /** `sub` occurs somewhere in `s`. */
  predicate Mentions(s: string, sub: string) {
    exists k :: 0 <= k <= |s| - |sub| && s[k..][..|sub|] == sub
  }

  /**
   * The error's Display text, which is what Lua receives: an engine error
   * shows the engine's own message unchanged, and the not-installed text
   * opens with its headline, names both paths `init_db` looks in, and
   * ends with the address the database can be fetched from.
   */
  function Message(e: DBError): (r: string)
    ensures e.Internal? ==> r == e.detail
    ensures e.NotInstalled? ==> Mentions(r, PRIMARY_PATH) && Mentions(r, FALLBACK_PATH)
    ensures e.NotInstalled? ==> |NOT_INSTALLED_HEADLINE| <= |r| && r[..|NOT_INSTALLED_HEADLINE|] == NOT_INSTALLED_HEADLINE
    ensures e.NotInstalled? ==> |MAXMIND_URL| <= |r| && r[|r| - |MAXMIND_URL|..] == MAXMIND_URL
  {
    match e
    case Internal(detail) => detail
    case NotInstalled => NotInstalledText(); NOT_INSTALLED_MESSAGE
  }

  /**
   * In any text `h + l + p + o + f + t + u`: it opens with `h`, ends with
   * `u`, and mentions `p` and `f`.
   */
  lemma InSevenParts(h: string, l: string, p: string, o: string, f: string, t: string, u: string)
    ensures var m := h + l + p + o + f + t + u;
            && Mentions(m, p) && Mentions(m, f)
            && |h| <= |m| && m[..|h|] == h
            && |u| <= |m| && m[|m| - |u|..] == u
  {
    var m := h + l + p + o + f + t + u;
    var toP := h + l;
    var toF := toP + p + o;
    assert m[..|h|] == h;
    assert m[|toP|..][..|p|] == p;
    assert m[|toF|..][..|f|] == f;
    assert m[|m| - |u|..] == u;
  }

  /** Where the headline, the two paths and the address sit in the not-installed text. */
  lemma NotInstalledText()
    ensures Mentions(NOT_INSTALLED_MESSAGE, PRIMARY_PATH) && Mentions(NOT_INSTALLED_MESSAGE, FALLBACK_PATH)
    ensures |NOT_INSTALLED_HEADLINE| <= |NOT_INSTALLED_MESSAGE|
            && NOT_INSTALLED_MESSAGE[..|NOT_INSTALLED_HEADLINE|] == NOT_INSTALLED_HEADLINE
    ensures |MAXMIND_URL| <= |NOT_INSTALLED_MESSAGE|
            && NOT_INSTALLED_MESSAGE[|NOT_INSTALLED_MESSAGE| - |MAXMIND_URL|..] == MAXMIND_URL
  {
    InSevenParts(NOT_INSTALLED_HEADLINE, " I expected to find one in ", PRIMARY_PATH, " or ", FALLBACK_PATH,
                 ", you can get it from here: ", MAXMIND_URL);
  }

  /**
   * The files visible to the process: a path exists exactly when it is a
   * key, and it maps to what opening it with the engine would give (a
   * reader, or the engine's error message).
   */
  datatype Disk = Disk(files: map<string, Result<Reader, string>>)

  /** The cached state of one execution context. */
  type DbState = Result<Reader, DBError>

  /** `Reader::open_mmap(path).map_err(Into::into)`. */
  function Open(disk: Disk, path: string): (r: DbState)
    requires path in disk.files
    ensures r.Ok? <==> disk.files[path].Ok?
    ensures r.Ok? ==> r.value == disk.files[path].value
    ensures r.Err? ==> r.error == Internal(disk.files[path].error)
  {
    match disk.files[path]
    case Ok(reader) => Ok(reader)
    case Err(detail) => Err(Internal(detail))
  }

  /**
   * `init_db`: the primary path wins whenever it exists, even when
   * opening it fails; the fallback path is opened only when the primary
   * one is absent; NotInstalled is the outcome exactly when neither exists.
   */
  function InitDb(disk: Disk): (r: DbState)
    ensures PRIMARY_PATH in disk.files ==> r == Open(disk, PRIMARY_PATH)
    ensures PRIMARY_PATH !in disk.files && FALLBACK_PATH in disk.files ==> r == Open(disk, FALLBACK_PATH)
    ensures r == Err(NotInstalled) <==> PRIMARY_PATH !in disk.files && FALLBACK_PATH !in disk.files
  {
    if PRIMARY_PATH in disk.files then Open(disk, PRIMARY_PATH)
    else if FALLBACK_PATH in disk.files then Open(disk, FALLBACK_PATH)
    else Err(NotInstalled)
  }

  /**
   * The state `refresh` leaves, given the state before it and the outcome
   * of its `init_db`: a new reader always replaces the state; a failure
   * replaces an earlier failure but never a working reader.
   */
  function Refreshed(prior: DbState, outcome: DbState): (r: DbState)
    ensures r.Ok? <==> outcome.Ok? || prior.Ok?
    ensures outcome.Ok? ==> r == outcome
    ensures r.Err? ==> r == outcome
    ensures prior.Ok? && outcome.Err? ==> r == prior
  {
    match outcome
    case Ok(_) => outcome
    case Err(e) => if prior.Err? then Err(e) else prior
  }

  /** The state after refreshing with each outcome of `outcomes` in turn. */
  function AfterRefreshes(prior: DbState, outcomes: seq<DbState>): DbState
    decreases |outcomes|
  {
    if outcomes == [] then prior
    else AfterRefreshes(Refreshed(prior, outcomes[0]), outcomes[1..])
  }

  /** The last reader among `outcomes`, if any refresh succeeded. */
  function LastReader(outcomes: seq<DbState>): Option<Reader>
    decreases |outcomes|
  {
    if outcomes == [] then None
    else if outcomes[|outcomes| - 1].Ok? then Some(outcomes[|outcomes| - 1].value)
    else LastReader(outcomes[..|outcomes| - 1])
  }

  /**
   * After any series of refreshes, the context holds the reader of the
   * last successful one; with none, it keeps the reader it had; and a
   * context without a reader records the latest failure.
   */
  lemma {:induction false} RefreshHistory(prior: DbState, outcomes: seq<DbState>)
    ensures var r := AfterRefreshes(prior, outcomes);
            && (LastReader(outcomes).Some? ==> r == Ok(LastReader(outcomes).value))
            && (LastReader(outcomes).None? && prior.Ok? ==> r == prior)
            && (LastReader(outcomes).None? && prior.Err? && outcomes != [] ==> r == outcomes[|outcomes| - 1])
    decreases |outcomes|
  {
    if outcomes != [] {
      var n := |outcomes|;
      var front := outcomes[..n - 1];
      AfterRefreshesSnoc(prior, front, outcomes[n - 1]);
      assert front + [outcomes[n - 1]] == outcomes;
      RefreshHistory(prior, front);
    }
  }

  lemma {:induction false} AfterRefreshesSnoc(prior: DbState, outcomes: seq<DbState>, last: DbState)
    ensures AfterRefreshes(prior, outcomes + [last]) == Refreshed(AfterRefreshes(prior, outcomes), last)
    decreases |outcomes|
  {
    if outcomes != [] {
      assert (outcomes + [last])[1..] == outcomes[1..] + [last];
      AfterRefreshesSnoc(Refreshed(prior, outcomes[0]), outcomes[1..], last);
    } else {
      assert [last][1..] == [];
    }
  }
}
