/** The launcher menu of src/main.rs: reading keys until one of '1', '2', '3' is pressed, and
    the release artifact each choice asks for. The choice stays the string the source breaks
    out of its loop with. */
module Launcher {
  import opened Wrappers

  /** A key code as the terminal reports it: a character key or any other key. */
  datatype KeyCode = Char(c: char) | OtherKey

  /** The result of one blocking read of a terminal event: a key press, another kind of
      event (resize, mouse, focus, paste), or a failed read. */
  datatype ReadEvent = Key(code: KeyCode) | NonKeyEvent | ReadFailed

  /** The three strings the key loop can produce. */
  const Choices: set<string> := {"1", "2", "3"}

  const ModrinthArtifact: string := "updated-pack-modrinth.mrpack"
  const CurseForgeArtifact: string := "updated-pack-curseforge.zip"
  const PrismArtifact: string := "updated-pack-prism.zip"

  /** The choice a single event makes, if it makes one. */
  function ChoiceOf(e: ReadEvent): (choice: Option<string>)
    ensures choice.Some? <==> e.Key? && e.code.Char? && e.code.c in {'1', '2', '3'}
    ensures choice.Some? ==> choice.value == [e.code.c] && choice.value in Choices
  {
    match e
    case Key(Char('1')) => Some("1")
    case Key(Char('2')) => Some("2")
    case Key(Char('3')) => Some("3")
    case _ => None
  }

  /** An event after which the loop prints "Please press 1, 2, or 3.": a key press that
      chooses nothing. Other events and failed reads are skipped silently. */
  predicate Prompts(e: ReadEvent)
    ensures Prompts(e) <==> e.Key? && !(e.code.Char? && e.code.c in {'1', '2', '3'})
    ensures e.NonKeyEvent? || e.ReadFailed? ==> !Prompts(e)
  {
    e.Key? && ChoiceOf(e).None?
  }

  /** How many prompts the events in `events` print. */
  function PromptCount(events: seq<ReadEvent>): nat {
    if events == [] then 0
    else PromptCount(events[..|events| - 1]) + (if Prompts(events[|events| - 1]) then 1 else 0)
  }

  /** The position of the first event that makes a choice, if any. */
  function FirstChoiceIndex(events: seq<ReadEvent>): (k: Option<nat>)
    ensures k.Some? ==> k.value < |events| && ChoiceOf(events[k.value]).Some?
    ensures k.Some? ==> forall j :: 0 <= j < k.value ==> ChoiceOf(events[j]).None?
    ensures k.None? ==> forall j :: 0 <= j < |events| ==> ChoiceOf(events[j]).None?
  {
    if events == [] then None
    else if ChoiceOf(events[0]).Some? then Some(0)
    else match FirstChoiceIndex(events[1..])
      case None => None
      case Some(i) => Some(i + 1)
  }

  /** The choice the key loop ends with on `events`, or None when the events run out first. */
  function SelectedChoice(events: seq<ReadEvent>): (choice: Option<string>)
    ensures choice.Some? ==> choice.value in Choices
    ensures choice.None? <==> forall j :: 0 <= j < |events| ==> ChoiceOf(events[j]).None?
  {
    match FirstChoiceIndex(events)
    case None => None
    case Some(k) => ChoiceOf(events[k])
  }

  /** The key loop: read events in order, stop at the first '1', '2' or '3', print a prompt
      for every other key press and skip non-key events and failed reads. It returns the
      choice (None when the events run out), how many events it consumed and how many
      prompts it printed. */
  method ReadChoice(events: seq<ReadEvent>) returns (choice: Option<string>, consumed: nat, prompts: nat)
    ensures choice == SelectedChoice(events)
    ensures choice.Some? ==> choice.value in Choices
    ensures choice.Some? ==> 0 < consumed <= |events| && ChoiceOf(events[consumed - 1]) == choice
    ensures choice.Some? ==> forall j :: 0 <= j < consumed - 1 ==> ChoiceOf(events[j]).None?
    ensures choice.None? ==> consumed == |events|
    ensures consumed <= |events| && prompts == PromptCount(events[..consumed])
  {
    choice, consumed, prompts := None, 0, 0;
    while consumed < |events|
      invariant consumed <= |events|
      invariant forall j :: 0 <= j < consumed ==> ChoiceOf(events[j]).None?
      invariant prompts == PromptCount(events[..consumed])
    {
      var e := events[consumed];
      assert events[..consumed + 1][..consumed] == events[..consumed];
      consumed := consumed + 1;
      match e {
        case Key(Char('1')) =>
          choice := Some("1");
          break;
        case Key(Char('2')) =>
          choice := Some("2");
          break;
        case Key(Char('3')) =>
          choice := Some("3");
          break;
        case Key(_) =>
          prompts := prompts + 1;
        case _ =>
      }
    }
  }

  /** The artifact each choice downloads; anything other than "1" and "2" falls through to
      the Prism archive. */
  function ArtifactName(choice: string): (name: string)
    ensures name in {ModrinthArtifact, CurseForgeArtifact, PrismArtifact}
    ensures name == ModrinthArtifact <==> choice == "1"
    ensures name == CurseForgeArtifact <==> choice == "2"
  {
    match choice
    case "1" => ModrinthArtifact
    case "2" => CurseForgeArtifact
    case _ => PrismArtifact
  }

  /** Different launcher choices ask for different artifacts. */
  lemma ArtifactNamesDistinct(c1: string, c2: string)
    requires c1 in Choices && c2 in Choices && c1 != c2
    ensures ArtifactName(c1) != ArtifactName(c2)
  {
  }
}
