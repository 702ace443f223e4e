/** The mask (view adapter) bookkeeping: which mask class an attachment
    uses by default, and how a requested mask is resolved. Whether a class
    exists is membership in a set of known class names. */
module Masks {
  import opened Php

  /** `AttachmentMask::class`, the built-in default. */
  const BuiltInMask := "Webklex\\PHPIMAP\\Support\\Masks\\AttachmentMask"

  /** The constructor's default: the client's default mask whenever it is
      loosely non-null, with no check that such a class exists; otherwise
      the built-in mask. */
  function InitialMask(clientDefault: Option<string>): (m: string)
    ensures LooselyNonNull(clientDefault) ==> m == clientDefault.value
    ensures !LooselyNonNull(clientDefault) ==> m == BuiltInMask
  {
    if LooselyNonNull(clientDefault) then clientDefault.value else BuiltInMask
  }

  /** `setMask`: the requested mask replaces the current one only if it is
      a known class. */
  function NextMask(current: string, requested: string, known: set<string>): (m: string)
    ensures requested in known ==> m == requested
    ensures requested !in known ==> m == current
  {
    if requested in known then requested else current
  }

  /** The message `mask()` throws for an unknown class. */
  function MaskNotFound(mask: string): Exception
  {
    MaskNotFoundException("Unknown mask provided: " + mask)
  }

  /** `mask()`: the requested class, or the current default when none is
      requested, provided that class is known; otherwise the not-found
      error naming it. */
  function ResolveMask(requested: Option<string>, current: string, known: set<string>): (r: Result<string>)
    ensures r.Ok? <==> (if requested.Some? then requested.value else current) in known
    ensures r.Ok? ==> r.value == (if requested.Some? then requested.value else current)
    ensures r.Err? ==> r.error == MaskNotFound(if requested.Some? then requested.value else current)
  {
    var chosen := if requested.Some? then requested.value else current;
    if chosen in known then Ok(chosen) else Err(MaskNotFound(chosen))
  }

  /** After `setMask` of a known class, resolving without an argument gives
      that class; after `setMask` of an unknown class, resolution without an
      argument is as it was. */
  lemma SetThenResolve(current: string, requested: string, known: set<string>)
    ensures requested in known ==> ResolveMask(None, NextMask(current, requested, known), known) == Ok(requested)
    ensures requested !in known ==>
              ResolveMask(None, NextMask(current, requested, known), known) == ResolveMask(None, current, known)
  {
  }

  /** `setMask` never turns a resolvable default into one that fails. */
  lemma NextMaskKeepsResolvable(current: string, requested: string, known: set<string>)
    requires current in known
    ensures NextMask(current, requested, known) in known
  {
  }

  /** The constructor installs a client default without the existence check
      `setMask` makes, so a default naming no class makes `mask()` without
      an argument fail. */
  lemma InitialMaskUnchecked(clientDefault: string, known: set<string>)
    requires clientDefault != "" && clientDefault !in known
    ensures InitialMask(Some(clientDefault)) == clientDefault
    ensures ResolveMask(None, InitialMask(Some(clientDefault)), known) == Err(MaskNotFound(clientDefault))
  {
  }
}
