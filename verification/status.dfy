/**
  The status panel and the two button captions, as functions of the
  controller's three flags. The captions name what the button would do.
 */
module Status {
  import opened Control

  datatype Panel = Panel(statusText: string, abilitiesButton: string, speechButton: string)

  function ConnectionLabel(connected: bool): string
  {
    if connected then "Connected" else "Disconnected"
  }

  function AbilitiesLabel(holding: bool): string
  {
    if holding then "Disabled" else "Enabled"
  }

  function SpeechLabel(running: bool): string
  {
    if running then "Running" else "Stopped"
  }

  function StatusText(connected: bool, holding: bool, running: bool): string
  {
    "Status:\n" + ConnectionLabel(connected) + "\nAbilities: " + AbilitiesLabel(holding)
      + "\nSpeech: " + SpeechLabel(running)
  }

  /** Read the three flags back off a status text: each label is told apart by its first letter. */
  function ReadStatusText(text: string): (bool, bool, bool)
  {
    var connected := |text| > 8 && text[8] == 'C';
    var a := 8 + |ConnectionLabel(connected)| + 12;
    var holding := |text| > a && text[a] == 'D';
    var b := a + |AbilitiesLabel(holding)| + 9;
    var running := |text| > b && text[b] == 'R';
    (connected, holding, running)
  }

  /** The status text shows every flag: the flags can be read back from it, so no two states share a text. */
  lemma StatusTextRoundTrip(connected: bool, holding: bool, running: bool)
    ensures ReadStatusText(StatusText(connected, holding, running)) == (connected, holding, running)
  {
    var conn := ConnectionLabel(connected);
    var abl := AbilitiesLabel(holding);
    var spl := SpeechLabel(running);
    var t := StatusText(connected, holding, running);
    var a := 8 + |conn| + 12;
    var b := a + |abl| + 9;
    assert t == "Status:\n" + conn + "\nAbilities: " + abl + "\nSpeech: " + spl;
    assert |"Status:\n"| == 8 && |"\nAbilities: "| == 12 && |"\nSpeech: "| == 9;
    assert t[8] == conn[0];
    assert t[a] == abl[0];
    assert t[b] == spl[0];
  }

  /** The panel the activity shows for a controller state. */
  function View(c: Controller): (p: Panel)
    ensures ReadStatusText(p.statusText) == (c.connected, c.isHolding, c.isAutoSpeechRunning)
    ensures p.abilitiesButton == "Enable Abilities" <==> c.isHolding
    ensures p.speechButton == "Stop Speech" <==> c.isAutoSpeechRunning
  {
    StatusTextRoundTrip(c.connected, c.isHolding, c.isAutoSpeechRunning);
    Panel(
      StatusText(c.connected, c.isHolding, c.isAutoSpeechRunning),
      if c.isHolding then "Enable Abilities" else "Disable Abilities",
      if c.isAutoSpeechRunning then "Stop Speech" else "Start Speech")
  }

  /** The abilities caption names what the button does: "Enable" exactly when pressing it asks for a release. */
  lemma AbilitiesCaptionMatchesToggle(c: Controller)
    ensures View(c).abilitiesButton == "Enable Abilities"
        <==> ToggleAutonomousAbilities(c).tasks == c.tasks + multiset{RunRelease}
  {
    if !c.isHolding {
      var d := ToggleAutonomousAbilities(c);
      assert d.tasks[RunRelease] == c.tasks[RunRelease];
    }
  }

  /** The speech caption names what the button does: "Stop" exactly when pressing it turns speech off. */
  lemma SpeechCaptionMatchesToggle(c: Controller)
    ensures View(c).speechButton == "Stop Speech" <==> !ToggleAutoSpeech(c).isAutoSpeechRunning
  {
  }
}
