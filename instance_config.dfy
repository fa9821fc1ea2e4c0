/** The rewrite of Prism's `instance.cfg` after extraction: every line matching the
    multi-line pattern `^name=.*$` is replaced by the release's display name. In that pattern
    `^` and `$` match at line starts and ends, and `.` matches anything but '\n', so a match
    is a whole line (up to, not including, its '\n') that starts with "name=". A '\r' before
    the '\n' is part of the line and is replaced with it. The replacement is produced by a
    closure, so the tag is inserted literally. */
module InstanceConfig {
  import opened Wrappers
  import opened Text
  import Paths

  const NameKey: string := "name="

  /** The line every name line becomes. */
  function NameLine(tag: string): (line: string)
    ensures StartsWith(line, NameKey) && line[|NameKey|..] == Paths.InstanceName(tag)
    ensures '\n' !in tag ==> '\n' !in line
  {
    assert NameKey + Paths.InstanceName(tag) == "name=" + Paths.PackName + " - " + tag;
    NameKey + Paths.InstanceName(tag)
  }

  /** One line after the substitution. */
  function RewriteLine(line: string, tag: string): (out: string)
    ensures StartsWith(out, NameKey) <==> StartsWith(line, NameKey)
    ensures StartsWith(line, NameKey) ==> out == NameLine(tag)
    ensures !StartsWith(line, NameKey) ==> out == line
    ensures '\n' !in line && '\n' !in tag ==> '\n' !in out
  {
    if StartsWith(line, NameKey) then NameLine(tag) else line
  }

  function RewriteLines(lines: seq<string>, tag: string): (out: seq<string>)
    ensures |out| == |lines|
    ensures forall i :: 0 <= i < |lines| ==> out[i] == RewriteLine(lines[i], tag)
  {
    if lines == [] then [] else [RewriteLine(lines[0], tag)] + RewriteLines(lines[1..], tag)
  }

  /** `replace_all` of `^name=.*$` in multi-line mode on the whole file. For a tag without
      '\n' the file keeps its number of lines, each name line becomes
      `name=Originalife Season 4 - <tag>` and every other line is left as it was. */
  function RewriteConfig(cfg: string, tag: string): (r: string)
    ensures '\n' !in tag ==>
      |SplitLines(r)| == |SplitLines(cfg)|
      && forall i :: 0 <= i < |SplitLines(cfg)| ==>
           SplitLines(r)[i] ==
             (if StartsWith(SplitLines(cfg)[i], NameKey) then NameLine(tag) else SplitLines(cfg)[i])
  {
    var lines := RewriteLines(SplitLines(cfg), tag);
    if '\n' in tag then JoinLines(lines)
    else
      SplitJoin(lines);
      JoinLines(lines)
  }

  /** A file without a name line is left exactly as it was. */
  lemma RewriteWithoutNameLine(cfg: string, tag: string)
    requires forall i :: 0 <= i < |SplitLines(cfg)| ==> !StartsWith(SplitLines(cfg)[i], NameKey)
    ensures RewriteConfig(cfg, tag) == cfg
  {
    assert RewriteLines(SplitLines(cfg), tag) == SplitLines(cfg);
    JoinSplit(cfg);
  }

  /** For a tag without '\n', rewriting twice gives what rewriting once gives. */
  lemma RewriteIdempotent(cfg: string, tag: string)
    requires '\n' !in tag
    ensures RewriteConfig(RewriteConfig(cfg, tag), tag) == RewriteConfig(cfg, tag)
  {
    var once := RewriteLines(SplitLines(cfg), tag);
    SplitJoin(once);
    assert RewriteLines(once, tag) == once;
  }

  /** The new contents written to `instance.cfg`: only for Prism (choice "3") and only when
      the file exists in the instance directory; otherwise nothing is written. */
  function PatchInstanceConfig(choice: string, existing: Option<string>, tag: string): (written: Option<string>)
    ensures written.Some? <==> choice == "3" && existing.Some?
    ensures written.Some? ==> written.value == RewriteConfig(existing.value, tag)
  {
    if choice == "3" && existing.Some? then Some(RewriteConfig(existing.value, tag)) else None
  }
}
