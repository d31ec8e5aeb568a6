/**
  The caller's options and how the mode and owner of the new file are
  decided. Every test in the program is a JavaScript truthiness test, so a
  mode of 0 counts as "not given", exactly like a missing one.
*/
module Attributes {
  import opened Base
  import opened FileSystem

  /** The options the writer reads: `mode`, `chown`, `encoding` and `fsync`; an absent field is `None`. */
  datatype Options = Options(mode: Option<nat>, chown: Option<Owner>, encoding: Option<string>, fsync: Option<bool>)

  /** What `{}` stands for when the caller passes no options. */
  const NoOptions: Options := Options(None, None, None, None)

  /** `options.mode` is truthy. */
  predicate ModeSet(o: Options) {
    o.mode.Some? && o.mode.value != 0
  }

  /** `options.chown` is truthy (any owner object is). */
  predicate ChownSet(o: Options) {
    o.chown.Some?
  }

  /** `options.fsync !== false`: only an explicit `false` turns flushing off. */
  predicate FsyncEnabled(o: Options) {
    o.fsync != Some(false)
  }

  /** Whether the existing file must be looked up: mode or chown is not given. */
  predicate NeedsStat(o: Options) {
    !ModeSet(o) || !ChownSet(o)
  }

  /** `options.encoding || 'utf8'`. */
  function Encoding(o: Options): (e: string)
    ensures e != ""
    ensures o.encoding.Some? && o.encoding.value != "" ==> e == o.encoding.value
    ensures !(o.encoding.Some? && o.encoding.value != "") ==> e == "utf8"
  {
    if o.encoding.Some? && o.encoding.value != "" then o.encoding.value else "utf8"
  }

  /**
    The options a job runs with. When mode and chown are both given they
    are used as they are and nothing is looked up. Otherwise `stats` is the
    outcome of stat on the target (`None` when it failed): a failed lookup
    leaves the options as given; a successful one fills the mode when it was
    not given and, only where the platform has numeric user ids, the owner
    when it was not given.
  */
  function Resolve(o: Options, stats: Option<Stats>, hasGetuid: bool): (r: Options)
    ensures !NeedsStat(o) ==> r == o
    ensures stats.None? ==> r == o
    ensures r.encoding == o.encoding && r.fsync == o.fsync
    ensures ModeSet(o) ==> r.mode == o.mode
    ensures ChownSet(o) ==> r.chown == o.chown
    ensures stats.Some? && !ModeSet(o) ==> r.mode == Some(stats.value.mode)
    ensures stats.Some? && !ChownSet(o) && hasGetuid ==> r.chown == Some(Owner(stats.value.uid, stats.value.gid))
    ensures !hasGetuid ==> r.chown == o.chown
  {
    if !NeedsStat(o) then o
    else match stats
      case None => o
      case Some(st) =>
        var withMode := if !ModeSet(o) then o.(mode := Some(st.mode)) else o;
        if !ChownSet(withMode) && hasGetuid then withMode.(chown := Some(Owner(st.uid, st.gid))) else withMode
  }
}
