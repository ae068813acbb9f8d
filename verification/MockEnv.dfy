// The mock.env file of cmd/pulse/mock.go: parsing, printing, and switching the mode.
module MockEnv {
  import opened Prelude
  import opened Text

  const MODE: string := "PULSE_MOCK_MODE"

  const KEYS: seq<string> := [
    "PULSE_MOCK_MODE",
    "PULSE_MOCK_NODES",
    "PULSE_MOCK_VMS_PER_NODE",
    "PULSE_MOCK_LXCS_PER_NODE",
    "PULSE_MOCK_DOCKER_HOSTS",
    "PULSE_MOCK_DOCKER_CONTAINERS",
    "PULSE_MOCK_GENERIC_HOSTS",
    "PULSE_MOCK_K8S_CLUSTERS",
    "PULSE_MOCK_K8S_NODES",
    "PULSE_MOCK_K8S_PODS",
    "PULSE_MOCK_K8S_DEPLOYMENTS",
    "PULSE_MOCK_RANDOM_METRICS",
    "PULSE_MOCK_STOPPED_PERCENT"
  ]

  const HEADER: seq<string> := [
    "# Pulse Mock Mode Configuration",
    "# Enable with: pulse mock enable",
    "# Disable with: pulse mock disable",
    ""
  ]

  const DEFAULTS: map<string, string> := map[
    "PULSE_MOCK_MODE" := "false",
    "PULSE_MOCK_NODES" := "7",
    "PULSE_MOCK_VMS_PER_NODE" := "5",
    "PULSE_MOCK_LXCS_PER_NODE" := "8",
    "PULSE_MOCK_DOCKER_HOSTS" := "3",
    "PULSE_MOCK_DOCKER_CONTAINERS" := "12",
    "PULSE_MOCK_GENERIC_HOSTS" := "4",
    "PULSE_MOCK_K8S_CLUSTERS" := "2",
    "PULSE_MOCK_K8S_NODES" := "4",
    "PULSE_MOCK_K8S_PODS" := "30",
    "PULSE_MOCK_K8S_DEPLOYMENTS" := "12",
    "PULSE_MOCK_RANDOM_METRICS" := "true",
    "PULSE_MOCK_STOPPED_PERCENT" := "20"
  ]

  // ----- what a line and a file mean -----

  // The setting on a line, if it has one: blank lines and comments have none.
  function Setting(line: string): Option<(string, string)> {
    SettingOf(TrimSpace(line))
  }

  function SettingOf(trimmed: string): Option<(string, string)> {
    if trimmed == "" || HasPrefix(trimmed, "#") then None
    else
      var i := IndexOf(trimmed, '=', 0);
      if i < 0 then None else Some((trimmed[..i], trimmed[i + 1..]))
  }

  type Reader = string -> Option<(string, string)>

  // All settings of a file, as the reader finds them on its lines; the last one of a key
  // wins.
  function Settings(lines: seq<string>, read: Reader): map<string, string> {
    if lines == [] then map[]
    else
      var before := Settings(lines[..|lines| - 1], read);
      WithSetting(before, read(lines[|lines| - 1]))
  }

  function Parsed(content: string): map<string, string> {
    Settings(Split(content, '\n'), Setting)
  }

  lemma SettingsStep(lines: seq<string>, i: nat, read: Reader)
    requires i < |lines|
    ensures Settings(lines[..i + 1], read) == WithSetting(Settings(lines[..i], read), read(lines[i]))
  {
    assert lines[..i + 1][..i] == lines[..i];
  }

  // The map with one more setting, if there is one.
  function WithSetting(before: map<string, string>, setting: Option<(string, string)>): map<string, string> {
    match setting
    case None => before
    case Some((k, v)) => before[k := v]
  }

  // One trip around the parsing loop, for a trimmed line.
  method ReadTrimmed(line: string, before: map<string, string>) returns (result: map<string, string>)
    ensures result == WithSetting(before, SettingOf(line))
  {
    result := before;
    if line == "" || HasPrefix(line, "#") {
      return;
    }
    var eq := IndexOf(line, '=', 0);
    if eq >= 0 {
      result := result[line[..eq] := line[eq + 1..]];
    }
  }

  method ParseMockEnv(content: string) returns (result: map<string, string>)
    ensures result == Parsed(content)
  {
    var lines := Split(content, '\n');
    result := map[];
    for i := 0 to |lines|
      invariant result == Settings(lines[..i], Setting)
    {
      SettingsStep(lines, i, Setting);
      result := ReadTrimmed(TrimSpace(lines[i]), result);
    }
    assert lines[..|lines|] == lines;
  }

  // ----- printing -----

  function Line(key: string, value: string): string {
    key + "=" + value
  }

  // The lines for those of the keys that are set.
  function LinesFor(config: map<string, string>, keys: seq<string>): seq<string> {
    if keys == [] then []
    else
      var before := LinesFor(config, keys[..|keys| - 1]);
      var k := keys[|keys| - 1];
      if k in config then before + [Line(k, config[k])] else before
  }

  // One line for each key that is set, in the order of the keys.
  lemma {:induction false} LinesInOrder(config: map<string, string>, a: seq<string>, k: string, b: seq<string>)
    ensures LinesFor(config, a + [k] + b) ==
      LinesFor(config, a) + (if k in config then [k + "=" + config[k]] else []) + LinesFor(config, b)
  {
    if b == [] {
      assert a + [k] + b == a + [k] && (a + [k])[..|a|] == a;
    } else {
      var (front, last) := (b[..|b| - 1], b[|b| - 1]);
      assert (a + [k] + b)[..|a + [k] + b| - 1] == a + [k] + front;
      LinesInOrder(config, a, k, front);
    }
  }

  function FileLines(header: seq<string>, keys: seq<string>, config: map<string, string>, extras: seq<string>): seq<string> {
    header + LinesFor(config, keys) + LinesFor(config, extras)
  }

  // The file for a map, with the keys outside the fixed list in the order given.
  function Written(config: map<string, string>, extras: seq<string>): string {
    Join(FileLines(HEADER, KEYS, config, extras), '\n') + "\n"
  }

  ghost predicate ListsExtras(extras: seq<string>, config: map<string, string>, keys: seq<string>) {
    forall k :: k in extras <==> k in config && k !in keys
  }

  method AppendKnown(header: seq<string>, keys: seq<string>, config: map<string, string>) returns (lines: seq<string>)
    ensures lines == header + LinesFor(config, keys)
  {
    lines := header;
    for i := 0 to |keys|
      invariant lines == header + LinesFor(config, keys[..i])
    {
      assert keys[..i + 1][..i] == keys[..i];
      if keys[i] in config {
        lines := lines + [Line(keys[i], config[keys[i]])];
      }
    }
    assert keys[..|keys|] == keys;
  }

  method IsKnown(keys: seq<string>, k: string) returns (found: bool)
    ensures found <==> k in keys
  {
    for j := 0 to |keys|
      invariant k !in keys[..j]
    {
      if k == keys[j] {
        return true;
      }
    }
    return false;
  }

  method AppendExtras(before: seq<string>, keys: seq<string>, config: map<string, string>)
    returns (lines: seq<string>, ghost extras: seq<string>)
    ensures ListsExtras(extras, config, keys) && lines == before + LinesFor(config, extras)
  {
    lines := before;
    extras := [];
    var todo := config.Keys;
    while todo != {}
      invariant todo <= config.Keys
      invariant forall k :: k in extras <==> k in config && k !in keys && k !in todo
      invariant lines == before + LinesFor(config, extras)
      decreases todo
    {
      var k :| k in todo;
      todo := todo - {k};
      var found := IsKnown(keys, k);
      if !found {
        assert (extras + [k])[..|extras|] == extras;
        lines := lines + [Line(k, config[k])];
        extras := extras + [k];
      }
    }
  }

  // The content writeMockEnv writes. The map is walked in an arbitrary order.
  method WriteMockEnv(config: map<string, string>) returns (content: string, ghost extras: seq<string>)
    ensures ListsExtras(extras, config, KEYS) && content == Written(config, extras)
  {
    var known := AppendKnown(HEADER, KEYS, config);
    var lines: seq<string>;
    lines, extras := AppendExtras(known, KEYS, config);
    content := Join(lines, '\n') + "\n";
  }

  // ----- which maps survive the file -----

  // A setting that reads back from its own line.
  predicate Clean(key: string, value: string) {
    '=' !in key && '\n' !in key && '\n' !in value && Trimmed(Line(key, value)) && !HasPrefix(Line(key, value), "#")
  }

  predicate Canonical(config: map<string, string>) {
    forall k :: k in config ==> Clean(k, config[k])
  }

  lemma SettingIsClean(line: string)
    requires '\n' !in line && Setting(line).Some?
    ensures Clean(Setting(line).value.0, Setting(line).value.1)
  {
    var trimmed := TrimSpace(line);
    var i := IndexOf(trimmed, '=', 0);
    TrimSpaceTrims(line);
    assert trimmed == Line(trimmed[..i], trimmed[i + 1..]);
    var left := TrimLeftSpace(line);
    assert forall c :: c in trimmed ==> c in left;
    assert forall c :: c in left ==> c in line;
  }

  lemma FirstEquals(key: string, value: string)
    requires '=' !in key
    ensures IndexOf(Line(key, value), '=', 0) == |key|
    ensures Line(key, value)[..|key|] == key && Line(key, value)[|key| + 1..] == value
  {
    var line := Line(key, value);
    assert line[|key|] == '=';
    assert forall j :: 0 <= j < |key| ==> line[j] == key[j] && key[j] in key;
  }

  lemma CleanReadsBack(key: string, value: string)
    requires Clean(key, value)
    ensures Setting(Line(key, value)) == Some((key, value))
  {
    TrimSpaceTrims(Line(key, value));
    CleanSplits(key, value);
  }

  lemma CleanSplits(key: string, value: string)
    requires '=' !in key && !HasPrefix(Line(key, value), "#")
    ensures SettingOf(Line(key, value)) == Some((key, value))
  {
    FirstEquals(key, value);
  }

  lemma {:induction false} SettingsAreCanonical(lines: seq<string>)
    requires Separated(lines, '\n')
    ensures Canonical(Settings(lines, Setting))
  {
    if lines != [] {
      var n := |lines| - 1;
      SettingsAreCanonical(lines[..n]);
      if Setting(lines[n]).Some? {
        SettingIsClean(lines[n]);
      }
    }
  }

  lemma ParsedIsCanonical(content: string)
    ensures Canonical(Parsed(content))
  {
    SplitSeparates(content, '\n');
    SettingsAreCanonical(Split(content, '\n'));
  }

  lemma SettingOfMeans(trimmed: string, key: string, value: string)
    ensures SettingOf(trimmed) == Some((key, value)) <==> trimmed == key + "=" + value && '=' !in key && !("#" <= trimmed)
  {
    if trimmed == key + "=" + value && '=' !in key {
      FirstEquals(key, value);
    }
    var i := IndexOf(trimmed, '=', 0);
    assert i >= 0 ==> trimmed == trimmed[..i] + "=" + trimmed[i + 1..];
  }

  // A line sets a key exactly when, trimmed, it is the key, an equals sign and the value, the
  // key has no equals sign, and the line is no comment.
  lemma SettingMeans(line: string, key: string, value: string)
    ensures Setting(line) == Some((key, value)) <==>
      TrimSpace(line) == key + "=" + value && '=' !in key && !("#" <= TrimSpace(line))
  {
    SettingOfMeans(TrimSpace(line), key, value);
  }

  // Line i sets the key to the value, and no line behind it sets the key.
  predicate SetsLast(lines: seq<string>, read: Reader, i: int, key: string, value: string) {
    0 <= i < |lines| && read(lines[i]) == Some((key, value)) &&
    forall j :: i < j < |lines| && read(lines[j]).Some? ==> read(lines[j]).value.0 != key
  }

  // The last line that sets a key decides its value, and no other line does.
  lemma {:induction false} LastLineWins(lines: seq<string>, read: Reader, key: string, value: string)
    ensures key in Settings(lines, read) && Settings(lines, read)[key] == value <==>
      exists i :: SetsLast(lines, read, i, key, value)
  {
    if lines != [] {
      var (front, last) := (lines[..|lines| - 1], lines[|lines| - 1]);
      LastLineWins(front, read, key, value);
      assert front + [last] == lines;
      if read(last).Some? && read(last).value.0 == key {
        assert SetsLast(lines, read, |front|, key, read(last).value.1);
      } else {
        OtherLineDecidesNothing(front, last, read, key, value);
      }
    }
  }

  lemma OtherLineDecidesNothing(front: seq<string>, last: string, read: Reader, key: string, value: string)
    requires !(read(last).Some? && read(last).value.0 == key)
    ensures (exists i :: SetsLast(front + [last], read, i, key, value)) <==> (exists i :: SetsLast(front, read, i, key, value))
  {
    var lines := front + [last];
    forall i ensures SetsLast(lines, read, i, key, value) <==> SetsLast(front, read, i, key, value) {
      assert forall j :: 0 <= j < |front| ==> lines[j] == front[j];
    }
  }

  // ----- the round trip -----

  lemma {:induction false} SettingsConcat(a: seq<string>, b: seq<string>, read: Reader)
    ensures Settings(a + b, read) == Settings(a, read) + Settings(b, read)
  {
    if b == [] {
      assert a + b == a;
    } else {
      var n := |b| - 1;
      assert (a + b)[..|a + b| - 1] == a + b[..n];
      SettingsConcat(a, b[..n], read);
    }
  }

  // The reader gets every printed line of this map right.
  ghost predicate ReadsLinesOf(read: Reader, config: map<string, string>) {
    forall k :: k in config ==> read(Line(k, config[k])) == Some((k, config[k]))
  }

  lemma {:induction false} LinesReadBack(config: map<string, string>, keys: seq<string>, read: Reader)
    requires ReadsLinesOf(read, config)
    ensures Settings(LinesFor(config, keys), read) == map k | k in config && k in keys :: config[k]
  {
    if keys != [] {
      var n := |keys| - 1;
      LinesReadBack(config, keys[..n], read);
      var before := LinesFor(config, keys[..n]);
      assert keys == keys[..n] + [keys[n]];
      if keys[n] in config {
        assert (before + [Line(keys[n], config[keys[n]])])[..|before|] == before;
      }
    }
  }

  lemma {:induction false} LinesAreSeparate(config: map<string, string>, keys: seq<string>)
    requires forall k :: k in config ==> '\n' !in Line(k, config[k])
    ensures Separated(LinesFor(config, keys), '\n')
  {
    if keys != [] {
      LinesAreSeparate(config, keys[..|keys| - 1]);
    }
  }

  lemma {:induction false} CommentsSetNothing(lines: seq<string>)
    requires forall i :: 0 <= i < |lines| ==> lines[i] == "" || lines[i][0] == '#'
    ensures Settings(lines, Setting) == map[]
  {
    if lines != [] {
      CommentsSetNothing(lines[..|lines| - 1]);
      CommentSetsNothing(lines[|lines| - 1]);
    }
  }

  lemma TrimKeepsFirst(s: string)
    requires s != "" && !IsSpace(s[0])
    ensures TrimSpace(s) != "" && TrimSpace(s)[0] == s[0]
  {
    assert TrimLeftSpace(s) == s;
    TrimRightKeeps(s);
  }

  lemma CommentIsNoSetting(trimmed: string)
    requires trimmed == "" || trimmed[0] == '#'
    ensures SettingOf(trimmed) == None
  {
  }

  lemma CommentSetsNothing(line: string)
    requires line == "" || line[0] == '#'
    ensures Setting(line) == None
  {
    if line != "" {
      TrimKeepsFirst(line);
    }
    CommentIsNoSetting(TrimSpace(line));
  }

  lemma {:induction false} TrimRightKeeps(s: string)
    requires s != "" && !IsSpace(s[0])
    ensures TrimRightSpace(s) != "" && TrimRightSpace(s)[0] == s[0]
  {
    if |s| > 1 && IsSpace(s[|s| - 1]) {
      TrimRightKeeps(s[..|s| - 1]);
    }
  }

  lemma {:induction false} JoinNewline(lines: seq<string>)
    requires |lines| > 0
    ensures Join(lines, '\n') + "\n" == Join(lines + [""], '\n')
  {
    var more := lines + [""];
    if |lines| == 1 {
      assert more[1..] == [""];
    } else {
      JoinNewline(lines[1..]);
      assert more[1..] == lines[1..] + [""];
      assert Join(lines, '\n') + "\n" == lines[0] + ['\n'] + (Join(lines[1..], '\n') + "\n");
    }
  }

  lemma KnownAndExtras(config: map<string, string>, keys: seq<string>, extras: seq<string>)
    requires ListsExtras(extras, config, keys)
    ensures (map k | k in config && k in keys :: config[k]) + (map k | k in config && k in extras :: config[k]) == config
  {
  }

  lemma FileReadsBack(header: seq<string>, keys: seq<string>, config: map<string, string>, extras: seq<string>, read: Reader)
    requires ReadsLinesOf(read, config) && ListsExtras(extras, config, keys) && Settings(header, read) == map[]
    ensures Settings(FileLines(header, keys, config, extras), read) == config
  {
    var known, others := LinesFor(config, keys), LinesFor(config, extras);
    LinesReadBack(config, keys, read);
    LinesReadBack(config, extras, read);
    SettingsConcat(header + known, others, read);
    SettingsConcat(header, known, read);
    KnownAndExtras(config, keys, extras);
    assert map[] + Settings(known, read) == Settings(known, read);
  }

  lemma SplitFile(lines: seq<string>)
    requires |lines| > 0 && Separated(lines, '\n')
    ensures Split(Join(lines, '\n') + "\n", '\n') == lines + [""]
  {
    JoinNewline(lines);
    SplitJoin(lines + [""], '\n');
  }

  lemma FileTextReadsBack(header: seq<string>, keys: seq<string>, config: map<string, string>, extras: seq<string>, read: Reader)
    requires ReadsLinesOf(read, config) && ListsExtras(extras, config, keys)
    requires header != [] && Separated(header, '\n') && Settings(header, read) == map[] && Settings([""], read) == map[]
    requires forall k :: k in config ==> '\n' !in Line(k, config[k])
    ensures Settings(Split(Join(FileLines(header, keys, config, extras), '\n') + "\n", '\n'), read) == config
  {
    var lines := FileLines(header, keys, config, extras);
    FileReadsBack(header, keys, config, extras, read);
    LinesAreSeparate(config, keys);
    LinesAreSeparate(config, extras);
    SplitFile(lines);
    SettingsConcat(lines, [""], read);
  }

  lemma HeaderIsSeparate()
    ensures Separated(HEADER, '\n')
  {
  }

  lemma HeaderIsComments()
    ensures forall i :: 0 <= i < |HEADER| ==> HEADER[i] == "" || HEADER[i][0] == '#'
  {
  }

  lemma CleanHasNoNewline(key: string, value: string)
    requires '\n' !in key && '\n' !in value
    ensures '\n' !in Line(key, value)
  {
  }

  lemma CleanLines(config: map<string, string>)
    requires Canonical(config)
    ensures ReadsLinesOf(Setting, config)
  {
    forall k | k in config ensures Setting(Line(k, config[k])) == Some((k, config[k])) {
      CleanReadsBack(k, config[k]);
    }
  }

  lemma CleanLinesAreSeparate(config: map<string, string>)
    requires Canonical(config)
    ensures forall k :: k in config ==> '\n' !in Line(k, config[k])
  {
    forall k | k in config ensures '\n' !in Line(k, config[k]) {
      CleanHasNoNewline(k, config[k]);
    }
  }

  lemma WrittenReadsBack(config: map<string, string>, extras: seq<string>)
    requires Canonical(config) && ListsExtras(extras, config, KEYS)
    ensures Parsed(Written(config, extras)) == config
  {
    HeaderIsComments();
    HeaderIsSeparate();
    CommentsSetNothing(HEADER);
    CommentsSetNothing([""]);
    CleanLines(config);
    CleanLinesAreSeparate(config);
    FileTextReadsBack(HEADER, KEYS, config, extras, Setting);
  }

  // Writing and reading is the identity on exactly the maps reading can produce.
  lemma RoundTripIffCanonical(config: map<string, string>, extras: seq<string>)
    requires ListsExtras(extras, config, KEYS)
    ensures Parsed(Written(config, extras)) == config <==> Canonical(config)
  {
    if Canonical(config) {
      WrittenReadsBack(config, extras);
    } else {
      ParsedIsCanonical(Written(config, extras));
    }
  }

  lemma ParseWriteParse(content: string, extras: seq<string>)
    requires ListsExtras(extras, Parsed(content), KEYS)
    ensures Parsed(Written(Parsed(content), extras)) == Parsed(content)
  {
    ParsedIsCanonical(content);
    WrittenReadsBack(Parsed(content), extras);
  }

  // ----- switching the mode -----

  predicate PlainChar(c: char) {
    ('A' <= c <= 'Z') || ('a' <= c <= 'z') || ('0' <= c <= '9') || c == '_'
  }

  predicate Plain(s: string) {
    |s| > 0 && forall i :: 0 <= i < |s| ==> PlainChar(s[i])
  }

  lemma PlainIsClean(key: string, value: string)
    requires Plain(key) && Plain(value)
    ensures Clean(key, value)
  {
    var line := Line(key, value);
    assert line[0] == key[0] && line[|line| - 1] == value[|value| - 1];
  }

  lemma ModeKeysArePlain()
    ensures Plain("PULSE_MOCK_MODE") && Plain("PULSE_MOCK_NODES")
  {
  }

  lemma GuestKeysArePlain()
    ensures Plain("PULSE_MOCK_VMS_PER_NODE") && Plain("PULSE_MOCK_LXCS_PER_NODE")
  {
  }

  lemma DockerKeysArePlain()
    ensures Plain("PULSE_MOCK_DOCKER_HOSTS") && Plain("PULSE_MOCK_DOCKER_CONTAINERS")
  {
  }

  lemma HostKeysArePlain()
    ensures Plain("PULSE_MOCK_GENERIC_HOSTS") && Plain("PULSE_MOCK_K8S_CLUSTERS")
  {
  }

  lemma KubernetesKeysArePlain()
    ensures Plain("PULSE_MOCK_K8S_NODES") && Plain("PULSE_MOCK_K8S_PODS")
  {
  }

  lemma DeploymentKeysArePlain()
    ensures Plain("PULSE_MOCK_K8S_DEPLOYMENTS")
  {
  }

  lemma OtherKeysArePlain()
    ensures Plain("PULSE_MOCK_RANDOM_METRICS") && Plain("PULSE_MOCK_STOPPED_PERCENT")
  {
  }

  lemma DefaultKeysArePlain()
    ensures forall k :: k in DEFAULTS ==> Plain(k)
  {
    ModeKeysArePlain();
    GuestKeysArePlain();
    DockerKeysArePlain();
    HostKeysArePlain();
    KubernetesKeysArePlain();
    DeploymentKeysArePlain();
    OtherKeysArePlain();
  }

  lemma DefaultValuesArePlain()
    ensures forall k :: k in DEFAULTS ==> Plain(DEFAULTS[k])
  {
  }

  lemma DefaultsAreCanonical()
    ensures Canonical(DEFAULTS)
  {
    DefaultKeysArePlain();
    DefaultValuesArePlain();
    forall k | k in DEFAULTS ensures Clean(k, DEFAULTS[k]) {
      PlainIsClean(k, DEFAULTS[k]);
    }
  }

  // The configuration setMockMode writes: the defaults, overridden by everything the
  // existing file sets except the mode, and then the mode asked for.
  function Configured(defaults: map<string, string>, mode: string, existing: map<string, string>, enable: bool): map<string, string> {
    (defaults + (existing - {mode}))[mode := if enable then "true" else "false"]
  }

  function Switched(existing: map<string, string>, enable: bool): map<string, string> {
    Configured(DEFAULTS, MODE, existing, enable)
  }

  method MergeExisting(defaults: map<string, string>, mode: string, existing: map<string, string>)
    returns (config: map<string, string>)
    ensures config == defaults + (existing - {mode})
  {
    config := defaults;
    var todo := existing.Keys;
    while todo != {}
      invariant todo <= existing.Keys
      invariant config == defaults + ((existing - {mode}) - todo)
      decreases todo
    {
      var k :| k in todo;
      if k != mode {
        config := config[k := existing[k]];
      }
      todo := todo - {k};
    }
  }

  function Existing(data: Option<string>): map<string, string> {
    if data.Some? then Parsed(data.value) else map[]
  }

  method MergeFile(defaults: map<string, string>, mode: string, data: Option<string>) returns (config: map<string, string>)
    ensures config == defaults + (Existing(data) - {mode})
  {
    if data.None? {
      assert defaults + (map[] - {mode}) == defaults;
      return defaults;
    }
    var existing := ParseMockEnv(data.value);
    config := MergeExisting(defaults, mode, existing);
  }

  // data is the file as read, or None if it could not be read.
  method SetMockMode(data: Option<string>, enable: bool) returns (content: string, ghost extras: seq<string>)
    ensures var config := Switched(Existing(data), enable);
      ListsExtras(extras, config, KEYS) && content == Written(config, extras)
  {
    var config := MergeFile(DEFAULTS, MODE, data);
    if enable {
      config := config[MODE := "true"];
    } else {
      config := config[MODE := "false"];
    }
    content, extras := WriteMockEnv(config);
  }

  lemma SwitchedIsCanonical(existing: map<string, string>, enable: bool)
    requires Canonical(existing)
    ensures Canonical(Switched(existing, enable))
  {
    DefaultsAreCanonical();
    GuestKeysArePlain();
    PlainIsClean(MODE, "true");
    PlainIsClean(MODE, "false");
  }

  // What the next reader of the file sees.
  lemma SwitchedFileReadsBack(content: string, enable: bool, extras: seq<string>)
    requires ListsExtras(extras, Switched(Parsed(content), enable), KEYS)
    ensures Parsed(Written(Switched(Parsed(content), enable), extras)) == Switched(Parsed(content), enable)
  {
    ParsedIsCanonical(content);
    SwitchedIsCanonical(Parsed(content), enable);
    WrittenReadsBack(Switched(Parsed(content), enable), extras);
  }

  lemma ConfiguredHasDefaults(defaults: map<string, string>, mode: string, existing: map<string, string>, enable: bool)
    ensures var c := Configured(defaults, mode, existing, enable);
      (forall k :: k in c <==> k in defaults || k in existing || k == mode) &&
      forall k :: k in defaults && k !in existing && k != mode ==> c[k] == defaults[k]
  {
  }

  lemma ConfiguredKeepsSettings(defaults: map<string, string>, mode: string, existing: map<string, string>, enable: bool)
    ensures var c := Configured(defaults, mode, existing, enable);
      (forall k :: k in existing && k != mode ==> k in c && c[k] == existing[k]) &&
      mode in c && c[mode] == (if enable then "true" else "false")
    ensures Configured(defaults, mode, Configured(defaults, mode, existing, enable), enable) ==
      Configured(defaults, mode, existing, enable)
  {
  }

  // Every setting of the old file but the mode is in the new one, every default the old file
  // does not set, and nothing else.
  lemma SwitchingKeepsSettings(content: string, enable: bool, extras: seq<string>)
    requires ListsExtras(extras, Switched(Parsed(content), enable), KEYS)
    ensures var after := Parsed(Written(Switched(Parsed(content), enable), extras));
      (forall k :: k in Parsed(content) && k != MODE ==> k in after && after[k] == Parsed(content)[k]) &&
      MODE in after && after[MODE] == (if enable then "true" else "false")
    ensures var after := Parsed(Written(Switched(Parsed(content), enable), extras));
      (forall k :: k in after <==> k in DEFAULTS || k in Parsed(content) || k == MODE) &&
      forall k :: k in DEFAULTS && k !in Parsed(content) && k != MODE ==> after[k] == DEFAULTS[k]
  {
    ConfiguredHasDefaults(DEFAULTS, MODE, Parsed(content), enable);
    SwitchedFileReadsBack(content, enable, extras);
    ConfiguredKeepsSettings(DEFAULTS, MODE, Parsed(content), enable);
  }

  // Switching twice to the same mode reads back as switching once.
  lemma SwitchingIsIdempotent(content: string, enable: bool, first: seq<string>, once: string, second: seq<string>)
    requires ListsExtras(first, Switched(Parsed(content), enable), KEYS)
    requires once == Written(Switched(Parsed(content), enable), first)
    requires ListsExtras(second, Switched(Parsed(once), enable), KEYS)
    ensures Parsed(Written(Switched(Parsed(once), enable), second)) == Parsed(once)
  {
    SwitchedFileReadsBack(content, enable, first);
    SwitchedFileReadsBack(once, enable, second);
    ConfiguredKeepsSettings(DEFAULTS, MODE, Parsed(content), enable);
  }
}
