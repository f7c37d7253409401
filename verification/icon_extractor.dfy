/**
 * The icon cache: resolves a file-system path to a frozen image through the shell,
 * remembers every success under the exact path string, and never remembers a failure.
 * The shell calls are oracles; the native handles they return are plain integers
 * (0 is the null handle).
 */
module Icons {

  import opened Platform

  /** What SHGetFileInfo reports: its return value and the hIcon field it filled in. */
  datatype ShFileInfo = ShFileInfo(result: int, hIcon: int)

  /** Imaging.CreateBitmapSourceFromHIcon: a new image, or an exception. */
  datatype Conversion = Converted(image: Image) | ConversionFault

  /** Icon.ExtractAssociatedIcon: an icon owning a native handle, null, or an exception. */
  datatype AssociatedIcon = Extracted(handle: int) | NoAssociatedIcon | ExtractionFault

  /** The shell facilities GetIcon consults. */
  datatype Shell = Shell(
    fs: FileSystem,
    shGetFileInfo: string -> ShFileInfo,
    extractAssociatedIcon: string -> AssociatedIcon,
    createBitmapSourceFromHIcon: int -> Conversion)

  /** How a resolution attempt ended: an image, no icon (null), or an exception that was caught. */
  datatype Outcome = Resolved(image: Image) | NoIcon | Faulted

  /** An attempt's outcome and the native handles released during it, in order. */
  datatype Resolution = Resolution(outcome: Outcome, released: seq<int>)

  /** The primary result is usable only when both the call result and the handle are non-null. */
  predicate PrimaryApplies(info: ShFileInfo) {
    info.result != 0 && info.hIcon != 0
  }

  /**
   * The primary strategy: the shell's large icon for the path. Its handle is
   * destroyed after a successful conversion; if the conversion throws, the
   * destruction is skipped.
   */
  function Primary(shell: Shell, path: string): (r: Resolution)
    ensures !PrimaryApplies(shell.shGetFileInfo(path)) ==> r == Resolution(NoIcon, [])
    ensures r.outcome.Resolved? ==> r.released == [shell.shGetFileInfo(path).hIcon]
    ensures r.outcome.Resolved? ==> shell.createBitmapSourceFromHIcon(shell.shGetFileInfo(path).hIcon) == Converted(r.outcome.image)
    ensures !r.outcome.Resolved? ==> r.released == []
    ensures PrimaryApplies(shell.shGetFileInfo(path)) ==>
      r.outcome == match shell.createBitmapSourceFromHIcon(shell.shGetFileInfo(path).hIcon)
                   case Converted(image) => Resolved(image)
                   case ConversionFault => Faulted
  {
    var info := shell.shGetFileInfo(path);
    if info.result != 0 && info.hIcon != 0 then
      match shell.createBitmapSourceFromHIcon(info.hIcon)
      case Converted(image) => Resolution(Resolved(image), [info.hIcon])
      case ConversionFault => Resolution(Faulted, [])
    else
      Resolution(NoIcon, [])
  }

  /**
   * The fallback strategy: the icon associated with a file. The extracted icon is
   * disposed when the attempt ends, whether or not its conversion succeeded.
   */
  function Fallback(shell: Shell, path: string): (r: Resolution)
    ensures shell.extractAssociatedIcon(path).Extracted? ==> r.released == [shell.extractAssociatedIcon(path).handle]
    ensures !shell.extractAssociatedIcon(path).Extracted? ==> r.released == [] && !r.outcome.Resolved?
    ensures shell.extractAssociatedIcon(path) == NoAssociatedIcon ==> r.outcome == NoIcon
    ensures shell.extractAssociatedIcon(path) == ExtractionFault ==> r.outcome == Faulted
    ensures shell.extractAssociatedIcon(path).Extracted? ==>
      r.outcome == match shell.createBitmapSourceFromHIcon(shell.extractAssociatedIcon(path).handle)
                   case Converted(image) => Resolved(image)
                   case ConversionFault => Faulted
  {
    match shell.extractAssociatedIcon(path)
    case Extracted(handle) =>
      (match shell.createBitmapSourceFromHIcon(handle)
       case Converted(image) => Resolution(Resolved(image), [handle])
       case ConversionFault => Resolution(Faulted, [handle]))
    case NoAssociatedIcon => Resolution(NoIcon, [])
    case ExtractionFault => Resolution(Faulted, [])
  }

  /**
   * The resolver chain: the primary strategy, then the fallback only when the
   * primary found no icon (without an exception) and the path is an existing file.
   */
  function Resolve(shell: Shell, path: string): (r: Resolution)
    ensures !Primary(shell, path).outcome.NoIcon? ==> r == Primary(shell, path)
    ensures !shell.fs.FileExists(path) ==> r == Primary(shell, path)
    ensures Primary(shell, path).outcome.NoIcon? && shell.fs.FileExists(path) ==> r == Fallback(shell, path)
  {
    var primary := Primary(shell, path);
    if primary.outcome.NoIcon? && shell.fs.FileExists(path) then
      var fallback := Fallback(shell, path);
      Resolution(fallback.outcome, primary.released + fallback.released)
    else
      primary
  }

  /** Every cached image is frozen. */
  predicate AllFrozen(entries: map<string, Image>) {
    forall p :: p in entries ==> entries[p].frozen
  }

  /**
   * What one GetIcon call does: the image it returns, the cache after it, the
   * handles it released, and whether it ran the resolver chain.
   */
  datatype Lookup = Lookup(icon: Option<Image>, entries: map<string, Image>, released: seq<int>, resolved: bool)

  /** The key condition in front of everything: a non-empty path that exists. */
  predicate Resolvable(shell: Shell, path: string) {
    path != "" && shell.fs.PathExists(path)
  }

  function GetIconStep(shell: Shell, entries: map<string, Image>, path: string): (r: Lookup)
    // an empty or missing path gives null and touches nothing, even if it is cached
    ensures !Resolvable(shell, path) ==> r == Lookup(None, entries, [], false)
    // a hit returns the stored image and touches nothing
    ensures Resolvable(shell, path) && path in entries ==> r == Lookup(Some(entries[path]), entries, [], false)
    // the resolver chain runs exactly on a miss
    ensures r.resolved <==> Resolvable(shell, path) && path !in entries
    ensures r.resolved ==> r.released == Resolve(shell, path).released
    // a successful resolution is frozen, stored under the exact path and returned
    ensures r.resolved && Resolve(shell, path).outcome.Resolved? ==>
      r.icon == Some(Resolve(shell, path).outcome.image.Freeze()) && r.entries == entries[path := r.icon.value]
    // a failure or an exception gives null and stores nothing
    ensures !(r.resolved && Resolve(shell, path).outcome.Resolved?) ==> r.entries == entries
    ensures r.resolved && !Resolve(shell, path).outcome.Resolved? ==> r.icon == None
    // other entries never change, and nothing is ever removed
    ensures forall p :: p in entries ==> p in r.entries && r.entries[p] == entries[p]
    ensures r.entries.Keys <= entries.Keys + {path}
    ensures r.icon.Some? ==> path in r.entries && r.entries[path] == r.icon.value
    ensures AllFrozen(entries) ==> AllFrozen(r.entries) && (r.icon.Some? ==> r.icon.value.frozen)
  {
    if path == "" || !shell.fs.PathExists(path) then Lookup(None, entries, [], false)
    else if path in entries then Lookup(Some(entries[path]), entries, [], false)
    else
      var resolution := Resolve(shell, path);
      match resolution.outcome
      case Resolved(image) =>
        var frozen := image.Freeze();
        Lookup(Some(frozen), entries[path := frozen], resolution.released, true)
      case _ => Lookup(None, entries, resolution.released, true)
  }

  /** Asking again for a path that just produced an image is a hit on that same image. */
  lemma SecondLookupIsHit(shell: Shell, entries: map<string, Image>, path: string)
    requires GetIconStep(shell, entries, path).icon.Some?
    ensures var first := GetIconStep(shell, entries, path);
      GetIconStep(shell, first.entries, path) == Lookup(first.icon, first.entries, [], false)
  {
  }

  /** After a failed resolution the next call for the same path resolves again. */
  lemma FailureIsRetried(shell: Shell, entries: map<string, Image>, path: string)
    requires Resolvable(shell, path) && GetIconStep(shell, entries, path).icon.None?
    ensures GetIconStep(shell, GetIconStep(shell, entries, path).entries, path).resolved
  {
  }

  /** After the cache is cleared, any existing path is a miss again. */
  lemma ClearedCacheResolvesAgain(shell: Shell, path: string)
    ensures GetIconStep(shell, map[], path).resolved <==> Resolvable(shell, path)
  {
  }

  /** The process-wide icon cache of the static IconExtractor class. */
  class IconExtractor {
    var entries: map<string, Image>
    /** The native handles released so far, in order. */
    var released: seq<int>
    /** How many times the resolver chain has run. */
    var resolutions: nat

    ghost predicate Valid()
      reads this
    {
      AllFrozen(entries)
    }

    constructor ()
      ensures entries == map[] && released == [] && resolutions == 0
      ensures Valid()
    {
      entries := map[];
      released := [];
      resolutions := 0;
    }

    method GetIcon(shell: Shell, path: string) returns (icon: Option<Image>)
      modifies this
      ensures var r := GetIconStep(shell, old(entries), path);
        && icon == r.icon
        && entries == r.entries
        && released == old(released) + r.released
        && resolutions == old(resolutions) + (if r.resolved then 1 else 0)
      ensures old(Valid()) ==> Valid()
    {
      if path == "" || !shell.fs.PathExists(path) {
        return None;
      }
      if path in entries {
        return Some(entries[path]);
      }
      resolutions := resolutions + 1;
      var found: Option<Image> := None;
      var faulted := false;
      var info := shell.shGetFileInfo(path);
      if info.result != 0 && info.hIcon != 0 {
        match shell.createBitmapSourceFromHIcon(info.hIcon) {
          case Converted(image) =>
            found := Some(image);
            released := released + [info.hIcon];
          case ConversionFault =>
            faulted := true;
        }
      }
      if !faulted && found.None? && shell.fs.FileExists(path) {
        match shell.extractAssociatedIcon(path) {
          case Extracted(handle) =>
            match shell.createBitmapSourceFromHIcon(handle) {
              case Converted(image) => found := Some(image);
              case ConversionFault => faulted := true;
            }
            released := released + [handle];
          case NoAssociatedIcon =>
          case ExtractionFault =>
            faulted := true;
        }
      }
      if faulted {
        return None;
      }
      if found.Some? {
        var frozen := found.value.Freeze();
        entries := entries[path := frozen];
        return Some(frozen);
      }
      return None;
    }

    method ClearCache()
      modifies this`entries
      ensures entries == map[]
      ensures Valid()
    {
      entries := map[];
    }
  }
}
