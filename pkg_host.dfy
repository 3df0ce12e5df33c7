/**
 * The parts of the pkg(8) host library that the plugin consumes: package
 * handles, lifecycle events, the identity `pkg_get` extracts from a package,
 * the plugin return codes, and one invocation of a configured script.
 */
module PkgHost {
  import opened Wrappers

  /** An opaque handle to a package owned by the host (a `struct pkg *`). */
  datatype Pkg = Pkg(handle: nat)

  /**
   * A `struct pkg_event`. Only the three "finished" kinds carry a package
   * reference the plugin reads; every other kind is `Other`. A package
   * reference may be NULL, hence `Option<Pkg>`. An upgrade carries the old
   * package `o` and the new package `n`.
   */
  datatype Event =
    | InstallFinished(pkg: Option<Pkg>)
    | DeinstallFinished(pkg: Option<Pkg>)
    | UpgradeFinished(o: Option<Pkg>, n: Option<Pkg>)
    | Other

  /** The name and origin `pkg_get` reports for a package. */
  datatype PkgId = PkgId(name: string, origin: string)

  /** The two return codes the plugin's callbacks produce. */
  datatype Rc = EpkgOk | EpkgFatal

  /** One run of a configured script: `script name origin`. */
  datatype Call = Call(script: Option<string>, name: string, origin: string)

}
