/** The message filters RenderThread installs on its IPC channel
    (chrome/renderer/render_thread.cc:122-136). The channel keeps them in an
    ordered list; removal takes out the first entry for that filter. */
module ChannelFilters {
  import opened Effects

  datatype Filter = DevToolsAgentFilter | DBMessageFilter | SuicideOnChannelErrorFilter

  /** Init adds the DevTools agent filter, then the database filter, then,
      on POSIX only, the filter that ends the process on a channel error. */
  function InitFilters(platform: Platform): (r: seq<Filter>)
    ensures |r| >= 2 && r[..2] == [DevToolsAgentFilter, DBMessageFilter]
    ensures SuicideOnChannelErrorFilter in r <==> platform == Posix
  {
    [DevToolsAgentFilter, DBMessageFilter] +
    (if platform == Posix then [SuicideOnChannelErrorFilter] else [])
  }

  /** Teardown removes only the first two filters Init installed, so the
      suicide filter is all that is left of them (render_thread.cc:133-136). */
  lemma TeardownLeavesSuicideFilter(platform: Platform)
    ensures RemoveFilter(RemoveFilter(InitFilters(platform), DevToolsAgentFilter), DBMessageFilter)
         == if platform == Posix then [SuicideOnChannelErrorFilter] else []
  {
    var fs := InitFilters(platform);
    assert fs[1..][1..] == if platform == Posix then [SuicideOnChannelErrorFilter] else [];
  }

  /** The filter list after removing `f`: its first occurrence goes, the
      rest keep their order, and a filter that is not installed changes nothing. */
  function RemoveFilter(fs: seq<Filter>, f: Filter): (r: seq<Filter>)
    ensures f !in fs ==> r == fs
    ensures f in fs ==> |r| == |fs| - 1
  {
    if fs == [] then []
    else if fs[0] == f then fs[1..]
    else [fs[0]] + RemoveFilter(fs[1..], f)
  }

  /** Removing a filter keeps the others in their original relative order:
      when the first entry for `f` is at `k`, the result is the list with
      exactly that entry left out. */
  lemma {:induction false} RemoveFilterDropsFirst(fs: seq<Filter>, f: Filter, k: nat)
    requires k < |fs| && fs[k] == f
    requires forall i | 0 <= i < k :: fs[i] != f
    ensures RemoveFilter(fs, f) == fs[..k] + fs[k + 1..]
  {
    if k == 0 {
      assert fs[..0] + fs[1..] == fs[1..];
    } else {
      assert fs[0] != f;
      RemoveFilterDropsFirst(fs[1..], f, k - 1);
      ConsSplice(fs, k);
    }
  }

  /** Leaving out entry `k` of a list is keeping its head and leaving out
      entry `k - 1` of its tail. */
  lemma ConsSplice<T>(s: seq<T>, k: nat)
    requires 0 < k < |s|
    ensures [s[0]] + (s[1..][..k - 1] + s[1..][k..]) == s[..k] + s[k + 1..]
  {
    assert s[..k] == [s[0]] + s[1..][..k - 1];
    assert s[k + 1..] == s[1..][k..];
  }

  /** Removing `f` leaves every other filter installed exactly if it was. */
  lemma {:induction false} RemoveFilterKeepsOthers(fs: seq<Filter>, f: Filter, g: Filter)
    requires g != f
    ensures g in RemoveFilter(fs, f) <==> g in fs
  {
    if fs != [] && fs[0] != f {
      RemoveFilterKeepsOthers(fs[1..], f, g);
      assert fs == [fs[0]] + fs[1..];
    }
  }
}
