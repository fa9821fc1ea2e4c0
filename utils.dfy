/** The helpers of src/utils.rs: the repository summary string, the `HH:MM:SS => ` log time
    prefix, the download progress bar and the emptying of a directory. */
module Utils {
  import opened Wrappers
  import opened Errors
  import opened Text
  import Releases

  // ---------------------------------------------------------------------------
  // Repository summary

  /** `format_repo_data` as written: the "Repo" line prints the user a second time. */
  function FormatRepoData(repoUser: string, repoName: string): (r: string)
    ensures StartsWith(r, "User => " + repoUser)
    ensures |r| == 3 * |repoUser| + |repoName| + 50
  {
    "User => " + repoUser + "\nRepo => " + repoUser
      + "\n\nURL => https://github.com/" + repoUser + "/" + repoName + ".git"
  }

  /** The summary the labels describe: the "Repo" line names the repository. */
  function FormatRepoDataIntended(repoUser: string, repoName: string): (r: string)
    ensures StartsWith(r, "User => " + repoUser)
    ensures |r| == 2 * |repoUser| + 2 * |repoName| + 50
  {
    "User => " + repoUser + "\nRepo => " + repoName
      + "\n\nURL => https://github.com/" + repoUser + "/" + repoName + ".git"
  }

  /** The four lines of the summary as written, for a user and repository name without
      line breaks: the user, the user again under the "Repo" label, a blank line and the
      clone URL. */
  lemma RepoDataLines(repoUser: string, repoName: string)
    requires '\n' !in repoUser && '\n' !in repoName
    ensures SplitLines(FormatRepoData(repoUser, repoName)) ==
      ["User => " + repoUser, "Repo => " + repoUser, "",
       "URL => https://github.com/" + repoUser + "/" + repoName + ".git"]
  {
    var user, repo, url := "User => " + repoUser, "Repo => " + repoUser,
      "URL => https://github.com/" + repoUser + "/" + repoName + ".git";
    LiteralBreaks();
    assert FormatRepoData(repoUser, repoName) == user + "\n" + (repo + "\n" + ("" + "\n" + url));
    NoBreaks(repoUser, repoName);
    SplitFour(user, repo, "", url);
  }

  /** For user "alice" and repository "pack" the "Repo" line says "alice". */
  lemma RepoLineShowsUser()
    ensures var lines := SplitLines(FormatRepoData("alice", "pack"));
      |lines| == 4 && lines[1] == "Repo => alice" && lines[1] != "Repo => pack"
  {
    var user, name := "alice", "pack";
    assert '\n' !in user && '\n' !in name;
    RepoDataLines(user, name);
    assert "Repo => " + user == "Repo => alice";
    assert "Repo => alice"[8] != "Repo => pack"[8];
  }

  /** The intended summary: its "Repo" line names the repository and the other lines are
      those of the summary as written. */
  lemma RepoDataIntendedLines(repoUser: string, repoName: string)
    requires '\n' !in repoUser && '\n' !in repoName
    ensures SplitLines(FormatRepoDataIntended(repoUser, repoName)) ==
      ["User => " + repoUser, "Repo => " + repoName, "",
       "URL => https://github.com/" + repoUser + "/" + repoName + ".git"]
  {
    var user, repo, url := "User => " + repoUser, "Repo => " + repoName,
      "URL => https://github.com/" + repoUser + "/" + repoName + ".git";
    LiteralBreaks();
    assert FormatRepoDataIntended(repoUser, repoName) == user + "\n" + (repo + "\n" + ("" + "\n" + url));
    NoBreaks(repoUser, repoName);
    SplitFour(user, repo, "", url);
  }

  /** The two literals of the format string that hold line breaks, split at them. */
  lemma LiteralBreaks()
    ensures "\nRepo => " == "\n" + "Repo => "
    ensures "\n\nURL => https://github.com/" == "\n" + ("" + "\n" + "URL => https://github.com/")
  {
    var url := "URL => https://github.com/";
    assert "" + "\n" + url == "\n" + url;
    assert "\n" + ("\n" + url) == "\n\nURL => https://github.com/";
  }

  lemma NoBreaks(repoUser: string, repoName: string)
    requires '\n' !in repoUser && '\n' !in repoName
    ensures '\n' !in "User => " + repoUser
    ensures '\n' !in "Repo => " + repoUser && '\n' !in "Repo => " + repoName
    ensures '\n' !in "URL => https://github.com/" + repoUser + "/" + repoName + ".git"
  {
  }

  lemma SplitFour(a: string, b: string, c: string, d: string)
    requires '\n' !in a && '\n' !in b && '\n' !in c && '\n' !in d
    ensures SplitLines(a + "\n" + (b + "\n" + (c + "\n" + d))) == [a, b, c, d]
  {
    SplitSingle(d);
    SplitCons(c, d);
    SplitCons(b, c + "\n" + d);
    SplitCons(a, b + "\n" + (c + "\n" + d));
  }

  // ---------------------------------------------------------------------------
  // Log time prefix

  predicate IsDigit(c: char) {
    '0' <= c <= '9'
  }

  function DigitChar(d: nat): (c: char)
    requires d < 10
    ensures IsDigit(c)
  {
    ('0' as int + d) as char
  }

  /** The number a string of decimal digits stands for. */
  function DecimalValue(s: string): nat
    requires forall i :: 0 <= i < |s| ==> IsDigit(s[i])
  {
    if s == [] then 0
    else DecimalValue(s[..|s| - 1]) * 10 + DigitValue(s[|s| - 1])
  }

  function DigitValue(c: char): nat
    requires IsDigit(c)
  {
    c as int - '0' as int
  }

  /** `{}` of an unsigned integer: its decimal digits without leading zeros. */
  function Decimal(n: nat): (s: string)
    ensures 1 <= |s|
    ensures n >= 10 ==> s[0] != '0'
    ensures forall i :: 0 <= i < |s| ==> IsDigit(s[i])
    ensures DecimalValue(s) == n
    ensures |s| == 1 <==> n < 10
    ensures n < 100 ==> |s| <= 2
  {
    if n < 10 then [DigitChar(n)]
    else
      var s := Decimal(n / 10) + [DigitChar(n % 10)];
      assert s[..|s| - 1] == Decimal(n / 10);
      s
  }

  /** `{:02}`: the decimal digits of `n`, padded on the left with '0' to at least two. */
  function Pad2(n: nat): (s: string)
    ensures forall i :: 0 <= i < |s| ==> IsDigit(s[i])
    ensures DecimalValue(s) == n
    ensures |s| == 2 <==> n < 100
    ensures |s| >= 2
    ensures n >= 100 ==> s[0] != '0'
  {
    if n < 10 then
      var s := ['0'] + Decimal(n);
      assert s[..1] == ['0'];
      s
    else Decimal(n)
  }

  /** The prefix `ShortTime` writes before every log line, for the current hour, minute and
      second. For a clock time it is exactly `HH:MM:SS => `: twelve characters, two digits
      per field, and the digits read back as the hour, minute and second. */
  function TimePrefix(hour: nat, minute: nat, second: nat): (p: string)
    ensures hour < 24 && minute < 60 && second < 60 ==>
      |p| == 12 && p[2] == ':' && p[5] == ':' && p[8..] == " => "
      && (forall i | i in {0, 1, 3, 4, 6, 7} :: IsDigit(p[i]))
      && DecimalValue(p[0..2]) == hour
      && DecimalValue(p[3..5]) == minute
      && DecimalValue(p[6..8]) == second
  {
    var p := Pad2(hour) + ":" + Pad2(minute) + ":" + Pad2(second) + " => ";
    assert hour < 100 ==> p[0..2] == Pad2(hour);
    assert hour < 100 && minute < 100 ==> p[3..5] == Pad2(minute);
    assert hour < 100 && minute < 100 && second < 100 ==> p[6..8] == Pad2(second);
    p
  }

  // ---------------------------------------------------------------------------
  // Progress bar

  /** `total_size as u64`: the bit pattern of a signed 64-bit size read as unsigned. */
  function AsU64(x: Releases.i64): (r: nat)
    ensures r < 0x1_0000_0000_0000_0000
    ensures x >= 0 ==> r == x as int
    ensures x < 0 ==> r >= 0x8000_0000_0000_0000
    ensures (r - x as int) % 0x1_0000_0000_0000_0000 == 0
  {
    if x >= 0 then x as int else x as int + 0x1_0000_0000_0000_0000
  }

  /** The download progress indicator: its length is the declared size and its position
      the number of bytes counted so far. */
  class ProgressBar {
    var length: nat
    var position: nat

    /** `progress_bar(total_size)`: a bar of length `total_size as u64` at position zero. */
    constructor (totalSize: Releases.i64)
      ensures length == AsU64(totalSize) && position == 0
    {
      length := AsU64(totalSize);
      position := 0;
    }

    /** `pb.inc(delta)`: advance the position by `delta`. */
    method Inc(delta: nat)
      modifies this
      ensures position == old(position) + delta && length == old(length)
    {
      position := position + delta;
    }
  }

  // ---------------------------------------------------------------------------
  // Emptying a directory

  /** An entry of a directory tree: a file (which cannot be removed when read-only) or a
      subdirectory with named children. */
  datatype Node = File(readOnly: bool) | Dir(children: map<string, Node>)

  /** Whether removing the entry succeeds: a file that is not read-only, or a directory
      every entry of which can be removed. */
  predicate Removable(n: Node) {
    match n
    case File(readOnly) => !readOnly
    case Dir(children) => forall k | k in children :: Removable(children[k])
  }

  /** One item of the directory iterator: an entry's name, or an entry that cannot be read. */
  datatype Listed = Entry(name: string) | Unreadable

  /** What the operating system promises of a directory listing: it names only entries of
      the directory, none twice, and when every item could be read it names every entry. */
  predicate IsListing(listing: seq<Listed>, entries: map<string, Node>) {
    (forall i :: 0 <= i < |listing| && listing[i].Entry? ==> listing[i].name in entries)
    && (forall i, j :: 0 <= i < j < |listing| && listing[i].Entry? && listing[j].Entry?
          ==> listing[i].name != listing[j].name)
    && ((forall i :: 0 <= i < |listing| ==> listing[i].Entry?) ==>
          forall k :: k in entries ==> exists i :: 0 <= i < |listing| && listing[i] == Entry(k))
  }

  /** Whether the loop gives up at this item: it cannot be read, or its removal fails. */
  predicate Stops(item: Listed, entries: map<string, Node>) {
    item.Unreadable? || (item.name in entries && !Removable(entries[item.name]))
  }

  /** The position of the first item at which the loop gives up, or the listing's length. */
  function StopIndex(listing: seq<Listed>, entries: map<string, Node>): (k: nat)
    ensures k <= |listing|
    ensures forall i :: 0 <= i < k ==> !Stops(listing[i], entries)
    ensures k < |listing| ==> Stops(listing[k], entries)
  {
    if listing == [] then 0
    else if Stops(listing[0], entries) then 0
    else 1 + StopIndex(listing[1..], entries)
  }

  /** The names of the entries in a part of a listing. */
  function Names(listing: seq<Listed>): set<string> {
    set i | 0 <= i < |listing| && listing[i].Entry? :: listing[i].name
  }

  /** The error the loop reports when it gives up at `item`. */
  function StopError(item: Listed, entries: map<string, Node>): (e: Error)
    requires Stops(item, entries)
    ensures item.Unreadable? <==> e == ReadEntryFailed
    ensures item.Entry? && entries[item.name].Dir? ==> e == RemoveDirFailed(item.name)
    ensures item.Entry? && entries[item.name].File? ==> e == RemoveFileFailed(item.name)
  {
    match item
    case Unreadable => ReadEntryFailed
    case Entry(name) => if entries[name].Dir? then RemoveDirFailed(name) else RemoveFileFailed(name)
  }

  /** The loop reaches the end of a complete listing exactly when every entry can be removed. */
  lemma ListingCompletes(listing: seq<Listed>, entries: map<string, Node>)
    requires IsListing(listing, entries)
    ensures StopIndex(listing, entries) == |listing| <==>
      (forall i :: 0 <= i < |listing| ==> listing[i].Entry?)
      && (forall k :: k in entries ==> Removable(entries[k]))
  {
    var stop := StopIndex(listing, entries);
    if stop == |listing| {
      forall k | k in entries ensures Removable(entries[k]) {
        var i :| 0 <= i < |listing| && listing[i] == Entry(k);
        assert !Stops(listing[i], entries);
      }
    }
  }

  /** A directory whose entries the updater deletes. The object stands for the directory
      itself, which outlives the deletion of its contents. */
  class Directory {
    var entries: map<string, Node>
    /** Whether `read_dir` can open the directory. */
    var readable: bool

    constructor (entries: map<string, Node>, readable: bool)
      ensures this.entries == entries && this.readable == readable
    {
      this.entries := entries;
      this.readable := readable;
    }

    /** `remove_dir_contents`: walk the listing in order, removing files with `remove_file`
        and subdirectories with `remove_dir_all`, and stop at the first item that cannot be
        read or removed. Entries removed before that stay removed; the directory itself
        stays. On success the directory is empty. */
    method RemoveContents(listing: seq<Listed>) returns (r: Result<(), Error>)
      requires IsListing(listing, entries)
      modifies this
      ensures readable == old(readable)
      ensures !readable ==> r == Err(ReadDirFailed) && entries == old(entries)
      ensures readable ==>
        var stop := StopIndex(listing, old(entries));
        entries == old(entries) - Names(listing[..stop])
        && (r.Ok? <==> stop == |listing|)
        && (r.Err? ==> r.error == StopError(listing[stop], old(entries)))
      ensures r.Ok? ==> entries == map[]
    {
      if !readable {
        return Err(ReadDirFailed);
      }
      ghost var before := entries;
      ghost var stop := StopIndex(listing, before);
      var i := 0;
      while i < |listing|
        invariant i <= stop
        invariant readable
        invariant entries == before - Names(listing[..i])
      {
        var item := listing[i];
        if item.Unreadable? {
          return Err(ReadEntryFailed);
        }
        NamesStep(listing, i);
        assert item.name in before && item.name !in Names(listing[..i]);
        var node := entries[item.name];
        if !Removable(node) {
          assert Stops(item, before);
          if node.Dir? {
            return Err(RemoveDirFailed(item.name));
          }
          return Err(RemoveFileFailed(item.name));
        }
        entries := entries - {item.name};
        i := i + 1;
      }
      NamesCoverKeys(listing, before);
      assert listing[..i] == listing;
      r := Ok(());
    }
  }

  /** The names of one more item of a listing. */
  lemma NamesStep(listing: seq<Listed>, i: nat)
    requires i < |listing|
    ensures Names(listing[..i + 1]) ==
      Names(listing[..i]) + (if listing[i].Entry? then {listing[i].name} else {})
  {
    assert forall j :: 0 <= j < i ==> listing[..i + 1][j] == listing[..i][j];
  }

  /** A complete listing whose items could all be read names every entry. */
  lemma NamesCoverKeys(listing: seq<Listed>, entries: map<string, Node>)
    requires IsListing(listing, entries)
    requires forall i :: 0 <= i < |listing| ==> listing[i].Entry?
    ensures entries.Keys <= Names(listing)
  {
    forall k | k in entries ensures k in Names(listing) {
      var i :| 0 <= i < |listing| && listing[i] == Entry(k);
    }
  }
}
