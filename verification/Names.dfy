/** Archive file names as the program reads them: the type marker in brackets that starts the name,
    and the rest of it, which ends with the user's comment in brackets and a unique part.
    `Format.dfy` proves that the text of a name determines both and what the type tests find in it. */
module Names {

  datatype Option<+T> = None | Some(value: T)

  datatype Result<+T, +E> = Ok(value: T) | Err(error: E)

  datatype Kind = Full | Smart | Overwrite | Untyped

  /** NoArchive is the empty string, which the metadata uses for "no reference". */
  datatype ArchiveName = NoArchive | Named(kind: Kind, stem: string)
  {
    function KindOf(): Kind { if this.Named? then kind else Untyped }
  }

  predicate IsFullLike(k: Kind) { k == Full || k == Overwrite }

  predicate IsSmart(k: Kind) { k == Smart }

  /** `part` occurs somewhere in `text`. */
  predicate Holds(text: string, part: string)
  {
    part <= text || (text != "" && Holds(text[1..], part))
  }

  // The type tests look for markers anywhere in a name, so a name can pass both.

  predicate ReadsSmart(n: ArchiveName)
  {
    n.Named? && (IsSmart(n.kind) || Holds(n.stem, "[Smart]"))
  }

  predicate ReadsFullLike(n: ArchiveName)
  {
    n.Named? && (IsFullLike(n.kind) || Holds(n.stem, "[Full]") || Holds(n.stem, "[Overwrite]"))
  }

  function LowerChar(c: char): char
  {
    if 'A' <= c <= 'Z' then ('a' as int + (c as int - 'A' as int)) as char else c
  }

  function Lower(s: string): (r: string)
    ensures |r| == |s|
  {
    seq(|s|, i requires 0 <= i < |s| => LowerChar(s[i]))
  }

  /** Case-insensitive comparison of two references; an empty one matches nothing. */
  predicate SameReference(a: ArchiveName, b: ArchiveName)
  {
    a.Named? && b.Named? && a.kind == b.kind && Lower(a.stem) == Lower(b.stem)
  }

  /** No two names of the set share a stem, up to letter case. */
  ghost predicate UniqueStems(names: set<ArchiveName>)
  {
    forall a, b | a in names && b in names && a.Named? && b.Named? && Lower(a.stem) == Lower(b.stem) :: a == b
  }

  function ReplaceFirst(text: string, part: string, substitute: string): string
  {
    if part <= text then substitute + text[|part|..]
    else if text == "" then ""
    else [text[0]] + ReplaceFirst(text[1..], part, substitute)
  }

  /** A merged checkpoint trades the first [Smart] of its name for [Full]. */
  function PromotedName(n: ArchiveName): ArchiveName
  {
    if n.NoArchive? then n
    else if IsSmart(n.kind) then Named(Full, n.stem)
    else Named(n.kind, ReplaceFirst(n.stem, "[Smart]", "[Full]"))
  }
}
