/** The arguments of a `say` command (stream_layers.c:513-514, 635-692): options joined by
    colons, then a comma, then the input. */
module SayArgs {
  import opened Fifo
  import opened Text

  datatype Setting = Speed(text: string) | Tone(text: string) | Model(name: string) | BufferSize(text: string)

  datatype Say = Say(settings: seq<Setting>, input: string)

  /** Which texts strtod takes as a whole number and grpctts_parse_buffer_size takes as a size. */
  datatype Numbers = Numbers(isNumber: string -> bool, isSize: string -> bool)

  /** The value of a parameter that is named and not empty. */
  function CheckParam(option: string, name: string): Option<string> {
    if |option| > |name| + 1 && option[..|name| + 1] == name + "=" then Some(option[|name| + 1..]) else None
  }

  function ParseSetting(numbers: Numbers, option: string): Option<Setting> {
    var speed := CheckParam(option, "speed");
    var tone := CheckParam(option, "tone");
    var model := CheckParam(option, "model");
    var size := CheckParam(option, "initial_buffer_size");
    if speed.Some? then (if numbers.isNumber(speed.value) then Some(Speed(speed.value)) else None)
    else if tone.Some? then (if numbers.isNumber(tone.value) then Some(Tone(tone.value)) else None)
    else if model.Some? then Some(Model(Unescape(model.value)))
    else if size.Some? then (if numbers.isSize(size.value) then Some(BufferSize(size.value)) else None)
    else None
  }

  function After<T>(done: seq<T>, more: Option<seq<T>>): Option<seq<T>> {
    if more.Some? then Some(done + more.value) else None
  }

  function ParseSettings(numbers: Numbers, text: string): Option<seq<Setting>>
    decreases |text|
  {
    if text == "" then Some([])
    else
      var sep := NonEscaped(text, ':');
      var setting := ParseSetting(numbers, if sep.Some? then text[..sep.value] else text);
      if setting.None? then None
      else After([setting.value], if sep.Some? then ParseSettings(numbers, text[sep.value + 1..]) else Some([]))
  }

  function ParseSay(numbers: Numbers, arg: string): Option<Say> {
    var sep := NonEscaped(arg, ',');
    if sep.None? then None
    else
      var settings := ParseSettings(numbers, arg[..sep.value]);
      if settings.None? then None else Some(Say(settings.value, arg[sep.value + 1..]))
  }

  // ---------------------------------------------------------------- what is accepted

  /** One of the four options, with a value that is not empty and, but for the model, well formed. */
  predicate Readable(numbers: Numbers, option: string) {
    || ("speed=" <= option && option != "speed=" && numbers.isNumber(option[6..]))
    || ("tone=" <= option && option != "tone=" && numbers.isNumber(option[5..]))
    || ("model=" <= option && option != "model=")
    || ("initial_buffer_size=" <= option && option != "initial_buffer_size=" && numbers.isSize(option[20..]))
  }

  lemma ParamIff(option: string, name: string)
    ensures CheckParam(option, name).Some? <==> name + "=" <= option && option != name + "="
    ensures CheckParam(option, name).Some? ==> CheckParam(option, name).value == option[|name| + 1..]
  {
    if |option| > |name| + 1 {
      assert option[..|name| + 1] == name + "=" <==> name + "=" <= option;
    }
  }

  /** An option is read exactly if it is readable, as the setting its name says. */
  lemma ReadIff(numbers: Numbers, option: string)
    ensures ParseSetting(numbers, option).Some? <==> Readable(numbers, option)
    ensures Readable(numbers, option) ==>
      ParseSetting(numbers, option).value ==
        if "speed=" <= option then Speed(option[6..]) else if "tone=" <= option then Tone(option[5..])
        else if "model=" <= option then Model(Unescape(option[6..])) else BufferSize(option[20..])
  {
    hide CheckParam, Unescape;
    ParamIff(option, "speed");
    ParamIff(option, "tone");
    ParamIff(option, "model");
    ParamIff(option, "initial_buffer_size");
    NamesDiffer(option);
  }

  lemma NamesDiffer(option: string)
    ensures "speed" + "=" == "speed=" && "tone" + "=" == "tone=" && "model" + "=" == "model="
    ensures "initial_buffer_size" + "=" == "initial_buffer_size="
    ensures "speed=" <= option ==> option[0] == 's'
    ensures "tone=" <= option ==> option[0] == 't'
    ensures "model=" <= option ==> option[0] == 'm'
    ensures "initial_buffer_size=" <= option ==> option[0] == 'i'
  {
  }

  /** The options between separators; nothing behind a last separator is none. */
  function Pieces(text: string): seq<string>
    decreases |text|
  {
    if text == "" then []
    else
      var sep := NonEscaped(text, ':');
      if sep.None? then [text] else [text[..sep.value]] + Pieces(text[sep.value + 1..])
  }

  /** Options are read exactly if each is readable, each as its own setting. */
  lemma {:induction false} PiecesRead(numbers: Numbers, text: string)
    ensures ParseSettings(numbers, text).Some?
       <==> forall i :: 0 <= i < |Pieces(text)| ==> Readable(numbers, Pieces(text)[i])
    ensures ParseSettings(numbers, text).Some? ==>
      var settings := ParseSettings(numbers, text).value;
      && |settings| == |Pieces(text)|
      && forall i :: 0 <= i < |settings| ==> Some(settings[i]) == ParseSetting(numbers, Pieces(text)[i])
    decreases |text|
  {
    hide ParseSetting, NonEscaped, Readable;
    if text != "" {
      var sep := NonEscaped(text, ':');
      ReadIff(numbers, if sep.Some? then text[..sep.value] else text);
      if sep.Some? {
        var rest := Pieces(text[sep.value + 1..]);
        PiecesRead(numbers, text[sep.value + 1..]);
        assert Pieces(text)[0] == text[..sep.value];
        assert forall i :: 0 <= i < |rest| ==> Pieces(text)[i + 1] == rest[i];
        assert forall i :: 0 < i < |Pieces(text)| ==> Pieces(text)[i] == rest[i - 1];
      } else {
        assert Pieces(text)[0] == text;
      }
    }
  }

  /** The arguments of a `say` are accepted exactly if there is a comma without a backslash before
      it, and every option up to the first one is readable. */
  lemma SayIff(numbers: Numbers, arg: string)
    ensures ParseSay(numbers, arg).Some? <==>
      var sep := NonEscaped(arg, ',');
      sep.Some? && forall i :: 0 <= i < |Pieces(arg[..sep.value])| ==> Readable(numbers, Pieces(arg[..sep.value])[i])
    ensures ParseSay(numbers, arg).Some? ==>
      ParseSay(numbers, arg).value.input == arg[NonEscaped(arg, ',').value + 1..]
  {
    hide ParseSettings, Pieces, Readable, NonEscaped;
    var sep := NonEscaped(arg, ',');
    if sep.Some? {
      PiecesRead(numbers, arg[..sep.value]);
    }
  }

  // ---------------------------------------------------------------- printing

  function Named(name: string, value: string): string {
    name + "=" + value
  }

  function Print(setting: Setting): string {
    match setting
    case Speed(text) => Named("speed", text)
    case Tone(text) => Named("tone", text)
    case Model(name) => Named("model", Escape(name))
    case BufferSize(text) => Named("initial_buffer_size", text)
  }

  function PrintAll(settings: seq<Setting>): string {
    if settings == [] then ""
    else if |settings| == 1 then Print(settings[0])
    else Print(settings[0]) + ":" + PrintAll(settings[1..])
  }

  predicate EndsOpen(text: string) {
    text != "" && text[|text| - 1] == '\\'
  }

  predicate PlainText(text: string) {
    text != "" && ',' !in text && ':' !in text && !EndsOpen(text)
  }

  /** What has to hold of a setting for its printed form to be read back. */
  predicate Printable(numbers: Numbers, setting: Setting) {
    match setting
    case Speed(text) => PlainText(text) && numbers.isNumber(text)
    case Tone(text) => PlainText(text) && numbers.isNumber(text)
    case Model(name) => name != "" && Literal(name) && !EndsOpen(name)
    case BufferSize(text) => PlainText(text) && numbers.isSize(text)
  }

  /** Every `c` has a backslash before it. */
  predicate Guarded(text: string, c: char) {
    forall i :: 0 <= i < |text| && text[i] == c ==> i > 0 && text[i - 1] == '\\'
  }

  lemma FirstSeparator(text: string, c: char, rest: string)
    requires Guarded(text, c) && !EndsOpen(text)
    ensures NonEscaped(text + [c] + rest, c) == Some(|text|)
  {
    var all := text + [c] + rest;
    assert Separates(all, c, |text|);
    assert forall j :: 0 <= j < |text| ==> all[j] == text[j] && !Separates(all, c, j);
  }

  lemma NoSeparator(text: string, c: char)
    requires Guarded(text, c)
    ensures NonEscaped(text, c) == None
  {
    assert forall j :: 0 <= j < |text| ==> !Separates(text, c, j);
  }

  lemma {:induction false} EscapeGuarded(text: string, c: char)
    requires Special(c)
    ensures Guarded(Escape(text), c)
    ensures text != "" ==> Escape(text) != "" && (EndsOpen(Escape(text)) <==> EndsOpen(text))
  {
    if text != "" {
      EscapeGuarded(text[1..], c);
      if text[1..] == "" {
        assert text == [text[0]];
      }
    }
  }

  lemma NamesPlain()
    ensures PlainText("speed") && PlainText("tone") && PlainText("initial_buffer_size")
  {
  }

  lemma NamedGuarded(name: string, value: string, c: char)
    requires PlainText(name) && PlainText(value) && (c == ',' || c == ':')
    ensures Guarded(Named(name, value), c) && !EndsOpen(Named(name, value)) && Named(name, value) != ""
  {
    var text := Named(name, value);
    forall i | 0 <= i < |text|
      ensures text[i] != c
    {
      assert text[i] == if i < |name| then name[i] else if i == |name| then '=' else value[i - |name| - 1];
    }
  }

  lemma PrintGuarded(numbers: Numbers, setting: Setting, c: char)
    requires Printable(numbers, setting) && (c == ',' || c == ':')
    ensures Guarded(Print(setting), c) && !EndsOpen(Print(setting)) && Print(setting) != ""
  {
    hide Escape, Literal, Named, Guarded, EndsOpen;
    NamesPlain();
    match setting
    case Speed(text) => NamedGuarded("speed", text, c);
    case Tone(text) => NamedGuarded("tone", text, c);
    case Model(name) => PrintModel(name, c);
    case BufferSize(text) => NamedGuarded("initial_buffer_size", text, c);
  }

  /** Parameters do not answer to each other's names, nor without a value. */
  lemma CheckNamed(name: string, other: string, value: string)
    requires '=' !in name && '=' !in other
    ensures CheckParam(Named(name, value), other) == if name == other && value != "" then Some(value) else None
  {
    var option := Named(name, value);
    assert option[..|name|] == name && option[..|name| + 1] == name + "=" && option[|name| + 1..] == value;
    assert forall j :: 0 <= j < |name| ==> option[j] == name[j];
    if |option| > |other| + 1 && option[..|other| + 1] == other + "=" {
      assert option[..|other|] == option[..|other| + 1][..|other|] == other;
      assert option[|name|] == '=' && option[|other|] == option[..|other| + 1][|other|] == '=';
      assert forall j :: 0 <= j < |other| ==> option[j] == other[j];
    }
  }

  lemma CheckAll(name: string, value: string)
    requires '=' !in name
    ensures forall other :: other in ["speed", "tone", "model", "initial_buffer_size"] ==>
      CheckParam(Named(name, value), other) == if name == other && value != "" then Some(value) else None
  {
    CheckNamed(name, "speed", value);
    CheckNamed(name, "tone", value);
    CheckNamed(name, "model", value);
    CheckNamed(name, "initial_buffer_size", value);
  }

  lemma ParseNamed(numbers: Numbers, value: string)
    ensures ParseSetting(numbers, Named("speed", value)) ==
      if value != "" && numbers.isNumber(value) then Some(Speed(value)) else None
    ensures ParseSetting(numbers, Named("tone", value)) ==
      if value != "" && numbers.isNumber(value) then Some(Tone(value)) else None
    ensures ParseSetting(numbers, Named("model", value)) ==
      if value != "" then Some(Model(Unescape(value))) else None
    ensures ParseSetting(numbers, Named("initial_buffer_size", value)) ==
      if value != "" && numbers.isSize(value) then Some(BufferSize(value)) else None
  {
    hide CheckParam, Unescape, Named;
    assert "speed"[0] == 's' && "tone"[0] == 't' && "model"[0] == 'm' && "initial_buffer_size"[0] == 'i';
    CheckAll("speed", value);
    CheckAll("tone", value);
    CheckAll("model", value);
    CheckAll("initial_buffer_size", value);
  }

  lemma ParsePrinted(numbers: Numbers, setting: Setting)
    requires Printable(numbers, setting)
    ensures ParseSetting(numbers, Print(setting)) == Some(setting)
  {
    hide ParseSetting, Unescape, Escape, Named;
    match setting
    case Speed(text) => ParseNamed(numbers, text);
    case Tone(text) => ParseNamed(numbers, text);
    case Model(name) =>
      EscapeGuarded(name, ',');
      EscapeRoundTripIff(name);
      ParseNamed(numbers, Escape(name));
    case BufferSize(text) => ParseNamed(numbers, text);
  }

  lemma ParseOne(numbers: Numbers, text: string)
    requires text != "" && Guarded(text, ':')
    ensures var setting := ParseSetting(numbers, text);
      ParseSettings(numbers, text) == if setting.None? then None else Some([setting.value])
  {
    hide ParseSetting, NonEscaped;
    NoSeparator(text, ':');
    var setting := ParseSetting(numbers, text);
    assert setting.Some? ==> [setting.value] + [] == [setting.value];
  }

  lemma ParseFirst(numbers: Numbers, text: string, rest: string)
    requires Guarded(text, ':') && !EndsOpen(text) && ParseSetting(numbers, text).Some?
    ensures ParseSettings(numbers, text + ":" + rest)
         == After([ParseSetting(numbers, text).value], ParseSettings(numbers, rest))
  {
    hide ParseSetting, NonEscaped;
    FirstSeparator(text, ':', rest);
    assert (text + ":" + rest)[..|text|] == text && (text + ":" + rest)[|text| + 1..] == rest;
  }

  lemma {:induction false} PrintAllGuarded(numbers: Numbers, settings: seq<Setting>)
    requires forall i :: 0 <= i < |settings| ==> Printable(numbers, settings[i])
    ensures Guarded(PrintAll(settings), ',') && !EndsOpen(PrintAll(settings))
    ensures settings != [] ==> PrintAll(settings) != ""
  {
    hide Print, Printable;
    if settings != [] {
      PrintGuarded(numbers, settings[0], ',');
      PrintAllGuarded(numbers, settings[1..]);
    }
  }

  lemma {:induction false} ParseAllPrinted(numbers: Numbers, settings: seq<Setting>)
    requires forall i :: 0 <= i < |settings| ==> Printable(numbers, settings[i])
    ensures ParseSettings(numbers, PrintAll(settings)) == Some(settings)
  {
    hide Print, Printable, ParseSettings, ParseSetting, Guarded, EndsOpen;
    if settings == [] {
      ParseNothing(numbers);
    } else {
      PrintGuarded(numbers, settings[0], ':');
      ParsePrinted(numbers, settings[0]);
      if |settings| == 1 {
        ParseOne(numbers, Print(settings[0]));
        assert settings == [settings[0]];
      } else {
        ParseAllPrinted(numbers, settings[1..]);
        ParseFirst(numbers, Print(settings[0]), PrintAll(settings[1..]));
        assert settings == [settings[0]] + settings[1..];
      }
    }
  }

  lemma ParseNothing(numbers: Numbers)
    ensures ParseSettings(numbers, "") == Some([])
  {
  }

  /** Printed options, a comma and any input are read back as exactly those options and input. */
  lemma SayRoundTrip(numbers: Numbers, settings: seq<Setting>, input: string)
    requires forall i :: 0 <= i < |settings| ==> Printable(numbers, settings[i])
    ensures ParseSay(numbers, PrintAll(settings) + "," + input) == Some(Say(settings, input))
  {
    hide PrintAll, ParseSettings;
    var text := PrintAll(settings);
    ParseAllPrinted(numbers, settings);
    PrintAllGuarded(numbers, settings);
    FirstSeparator(text, ',', input);
    assert (text + "," + input)[..|text|] == text && (text + "," + input)[|text| + 1..] == input;
  }

  /** A model name survives exactly when it is not empty, does not end in a backslash and its
      backslashes are literal. */
  lemma ModelRoundTripIff(numbers: Numbers, name: string, input: string)
    ensures ParseSay(numbers, Print(Model(name)) + "," + input) == Some(Say([Model(name)], input))
       <==> name != "" && Literal(name) && !EndsOpen(name)
  {
    var text := Print(Model(name));
    var arg := text + "," + input;
    if name != "" && Literal(name) && !EndsOpen(name) {
      SayRoundTrip(numbers, [Model(name)], input);
    } else if EndsOpen(name) {
      LateSeparator(name, input);
    } else {
      ModelMisread(numbers, name, input);
    }
  }

  lemma PrintModel(name: string, c: char)
    requires c == ',' || c == ':'
    ensures var text := Print(Model(name));
      Guarded(text, c) && text != "" && (EndsOpen(text) <==> EndsOpen(name))
  {
    EscapeGuarded(name, c);
    if name == "" {
      assert Print(Model("")) == "model=";
    }
  }

  /** After a name that ends in a backslash the comma does not separate. */
  lemma LateSeparator(name: string, input: string)
    requires EndsOpen(name)
    ensures var sep := NonEscaped(Print(Model(name)) + "," + input, ',');
      sep.Some? ==> sep.value > |Print(Model(name))|
  {
    hide Print;
    var text := Print(Model(name));
    var arg := text + "," + input;
    PrintModel(name, ',');
    assert arg[|text| - 1] == '\\';
    assert forall j :: 0 <= j < |text| ==> arg[j] == text[j] && !Separates(arg, ',', j);
  }

  lemma ModelMisread(numbers: Numbers, name: string, input: string)
    requires !EndsOpen(name) && (name == "" || !Literal(name))
    ensures ParseSay(numbers, Print(Model(name)) + "," + input) != Some(Say([Model(name)], input))
  {
    hide ParseSettings, ParseSetting, Unescape, Escape, Guarded, Named;
    var text := Print(Model(name));
    PrintModel(name, ',');
    PrintModel(name, ':');
    EscapeRoundTripIff(name);
    FirstSeparator(text, ',', input);
    assert (text + "," + input)[..|text|] == text;
    ParseOne(numbers, text);
    ParseNamed(numbers, Escape(name));
    if name == "" {
      EscapeNothing();
    }
  }

  lemma EscapeNothing()
    ensures Escape("") == ""
  {
  }

  // ---------------------------------------------------------------- in place

  method ReadString(buffer: array<char>, start: nat) returns (text: string)
    requires Terminated(buffer[..], start)
    ensures text == CString(buffer[..], start)
  {
    hide CString, Terminated;
    ghost var whole := CString(buffer[..], start);
    assert forall k :: 0 <= k < |whole| ==> buffer[start + k] == whole[k];
    var i := start;
    text := "";
    while buffer[i] != NUL
      invariant start <= i <= start + |whole| && text == whole[..i - start]
      decreases start + |whole| - i
    {
      text := text + [buffer[i]];
      i := i + 1;
    }
    assert i == start + |whole|;
  }

  lemma CheckedParam(option: string, name: string)
    ensures CheckParam(option, name).Some? ==>
      |option| > |name| + 1 && CheckParam(option, name).value == option[|name| + 1..]
  {
  }

  /** Unescapes and reads a model name behind "model=". */
  method ReadModel(buffer: array<char>, start: nat) returns (name: string)
    requires Terminated(buffer[..], start) && |CString(buffer[..], start)| > 6
    modifies buffer
    ensures name == Unescape(old(CString(buffer[..], start))[6..])
    ensures Elsewhere(buffer[..], old(buffer[..]), start, start + |old(CString(buffer[..], start))|)
  {
    hide CString, Terminated, Unescape, Elsewhere;
    ghost var before, end := buffer[..], start + |CString(buffer[..], start)|;
    CStringSuffix(buffer[..], start, start + 6);
    UnescapeInPlace(buffer, start + 6);
    ElsewhereWider(buffer[..], before, start + 6, end, start, end);
    name := ReadString(buffer, start + 6);
  }

  /** Reads one option; a model name is unescaped where it stands. */
  method ReadSetting(buffer: array<char>, start: nat, numbers: Numbers) returns (r: Option<Setting>)
    requires Terminated(buffer[..], start)
    modifies buffer
    ensures r == ParseSetting(numbers, old(CString(buffer[..], start)))
    ensures Elsewhere(buffer[..], old(buffer[..]), start, start + |old(CString(buffer[..], start))|)
  {
    hide CString, Terminated, Unescape, CheckParam, Elsewhere;
    ElsewhereNone(buffer[..], start);
    ElsewhereWider(buffer[..], buffer[..], start, start, start, start + |CString(buffer[..], start)|);
    var option := ReadString(buffer, start);
    var speed, tone := CheckParam(option, "speed"), CheckParam(option, "tone");
    var model, size := CheckParam(option, "model"), CheckParam(option, "initial_buffer_size");
    if speed.Some? {
      r := if numbers.isNumber(speed.value) then Some(Speed(speed.value)) else None;
    } else if tone.Some? {
      r := if numbers.isNumber(tone.value) then Some(Tone(tone.value)) else None;
    } else if model.Some? {
      CheckedParam(option, "model");
      var name := ReadModel(buffer, start);
      r := Some(Model(name));
    } else if size.Some? {
      r := if numbers.isSize(size.value) then Some(BufferSize(size.value)) else None;
    } else {
      r := None;
    }
  }

  lemma CutStrings(before: seq<char>, start: nat, sep: nat)
    requires Terminated(before, start) && start <= sep < start + |CString(before, start)|
    ensures var cut, text := before[sep := NUL], CString(before, start);
      && Terminated(cut, start) && CString(cut, start) == text[..sep - start]
      && Terminated(cut, sep + 1) && CString(cut, sep + 1) == text[sep + 1 - start..]
  {
    hide CString;
    var cut, text := before[sep := NUL], CString(before, start);
    assert cut[start..sep] == text[..sep - start];
    CStringIs(cut, start, text[..sep - start]);
    assert cut[sep + 1..start + |text|] == text[sep + 1 - start..];
    CStringIs(cut, sep + 1, text[sep + 1 - start..]);
  }

  /** Cuts the string at `sep`: both halves are strings then. */
  method Cut(buffer: array<char>, start: nat, sep: nat)
    requires Terminated(buffer[..], start) && start <= sep < start + |CString(buffer[..], start)|
    modifies buffer
    ensures Terminated(buffer[..], start) && Terminated(buffer[..], sep + 1)
    ensures CString(buffer[..], start) == old(CString(buffer[..], start))[..sep - start]
    ensures CString(buffer[..], sep + 1) == old(CString(buffer[..], start))[sep + 1 - start..]
    ensures Elsewhere(buffer[..], old(buffer[..]), sep, sep + 1) && buffer[sep] == NUL
  {
    ghost var before := buffer[..];
    buffer[sep] := NUL;
    assert buffer[..] == before[sep := NUL];
    CutStrings(before, start, sep);
  }

  lemma CStringElsewhere(buffer: seq<char>, before: seq<char>, start: nat, from: nat, to: nat)
    requires Elsewhere(buffer, before, from, to) && to <= start && Terminated(before, start)
    ensures Terminated(buffer, start) && CString(buffer, start) == CString(before, start)
  {
    hide CString;
    var text := CString(before, start);
    assert buffer[start..start + |text|] == text;
    CStringIs(buffer, start, text);
  }

  lemma ElsewhereWider(buffer: seq<char>, before: seq<char>, from: nat, to: nat, from': nat, to': nat)
    requires Elsewhere(buffer, before, from, to) && from' <= from && to <= to'
    ensures Elsewhere(buffer, before, from', to')
  {
  }

  /** One pass of the option loop: cuts off the first option and reads it; `next` is where the
      rest starts. */
  method ReadNext(buffer: array<char>, arg: nat, numbers: Numbers) returns (setting: Option<Setting>, next: Option<nat>)
    requires Terminated(buffer[..], arg)
    modifies buffer
    ensures var text := old(CString(buffer[..], arg)); var sep := NonEscaped(text, ':');
      if sep.Some? then
        && setting == ParseSetting(numbers, text[..sep.value])
        && next == Some(arg + sep.value + 1) && Terminated(buffer[..], next.value)
        && CString(buffer[..], next.value) == text[sep.value + 1..]
      else
        setting == ParseSetting(numbers, text) && next == None
    ensures Elsewhere(buffer[..], old(buffer[..]), arg, arg + |old(CString(buffer[..], arg))|)
  {
    hide CString, Terminated, Elsewhere, ParseSetting, NonEscaped;
    ghost var text, before := CString(buffer[..], arg), buffer[..];
    var sep := FindNonEscaped(buffer, arg, ':');
    if sep.None? {
      setting := ReadSetting(buffer, arg, numbers);
      return setting, None;
    }
    Cut(buffer, arg, sep.value);
    ghost var middle := buffer[..];
    setting := ReadSetting(buffer, arg, numbers);
    CStringElsewhere(buffer[..], middle, sep.value + 1, arg, sep.value);
    ElsewhereWider(middle, before, sep.value, sep.value + 1, arg, sep.value + 1);
    ElsewhereToo(buffer[..], middle, before, arg, sep.value + 1, arg, sep.value);
    next := Some(sep.value + 1);
  }

  lemma AfterNext(numbers: Numbers, text: string)
    requires text != ""
    ensures var sep := NonEscaped(text, ':');
      var setting := ParseSetting(numbers, if sep.Some? then text[..sep.value] else text);
      ParseSettings(numbers, text) ==
        if setting.None? then None
        else After([setting.value], if sep.Some? then ParseSettings(numbers, text[sep.value + 1..]) else Some([]))
  {
  }

  lemma AfterAfter<T>(a: seq<T>, b: seq<T>, more: Option<seq<T>>)
    ensures After(a, After(b, more)) == After(a + b, more)
  {
    if more.Some? {
      assert a + (b + more.value) == a + b + more.value;
    }
  }

  /** The option loop: reads the options of the string at `start`, cutting it up. */
  method ParseOptions(buffer: array<char>, start: nat, numbers: Numbers) returns (r: Option<seq<Setting>>)
    requires Terminated(buffer[..], start)
    modifies buffer
    ensures r == ParseSettings(numbers, old(CString(buffer[..], start)))
    ensures Elsewhere(buffer[..], old(buffer[..]), start, start + |old(CString(buffer[..], start))|)
  {
    hide CString, Terminated, Elsewhere, ParseSetting, ParseSettings;
    ghost var options, before, end := CString(buffer[..], start), buffer[..], start + |CString(buffer[..], start)|;
    var arg, settings := start, [];
    ElsewhereNone(before, start);
    ElsewhereWider(before, before, start, start, start, end);
    AfterNothing(numbers, options);
    while buffer[arg] != NUL
      invariant start <= arg <= end && Terminated(buffer[..], arg) && arg + |CString(buffer[..], arg)| == end
      invariant ParseSettings(numbers, options) == After(settings, ParseSettings(numbers, CString(buffer[..], arg)))
      invariant Elsewhere(buffer[..], before, start, end)
      decreases end - arg
    {
      ghost var text, middle := CString(buffer[..], arg), buffer[..];
      NotEmpty(buffer[..], arg);
      AfterNext(numbers, text);
      var setting, next := ReadNext(buffer, arg, numbers);
      ElsewhereToo(buffer[..], middle, before, start, end, arg, end);
      if setting.None? {
        return None;
      }
      ghost var more := if next.Some? then ParseSettings(numbers, CString(buffer[..], next.value)) else Some([]);
      AfterAfter(settings, [setting.value], more);
      settings := settings + [setting.value];
      if next.None? {
        assert settings + [] == settings;
        return Some(settings);
      }
      arg := next.value;
    }
    NotEmpty(buffer[..], arg);
    ParseNothing(numbers);
    assert settings + [] == settings;
    return Some(settings);
  }

  lemma AfterNothing(numbers: Numbers, options: string)
    ensures ParseSettings(numbers, options) == After([], ParseSettings(numbers, options))
  {
    hide ParseSettings;
    var r := ParseSettings(numbers, options);
    assert r.Some? ==> [] + r.value == r.value;
  }

  lemma NotEmpty(buffer: seq<char>, start: nat)
    requires Terminated(buffer, start)
    ensures CString(buffer, start) == "" <==> buffer[start] == NUL
  {
  }

  /** parse_say_args, on the buffer that holds the argument. */
  method ParseSayArgs(buffer: array<char>, start: nat, numbers: Numbers) returns (r: Option<Say>)
    requires Terminated(buffer[..], start)
    modifies buffer
    ensures r == ParseSay(numbers, old(CString(buffer[..], start)))
  {
    hide CString, Terminated, Elsewhere, ParseSettings, NonEscaped;
    var sep := FindNonEscaped(buffer, start, ',');
    if sep.None? {
      return None;
    }
    Cut(buffer, start, sep.value);
    ghost var middle := buffer[..];
    var settings := ParseOptions(buffer, start, numbers);
    if settings.None? {
      return None;
    }
    CStringElsewhere(buffer[..], middle, sep.value + 1, start, sep.value);
    var input := ReadInput(buffer, sep.value);
    return Some(Say(settings.value, input));
  }

  /** Puts the comma back and reads what stands behind it. */
  method ReadInput(buffer: array<char>, sep: nat) returns (input: string)
    requires sep < buffer.Length && Terminated(buffer[..], sep + 1)
    modifies buffer
    ensures input == old(CString(buffer[..], sep + 1))
  {
    hide CString, Terminated, Elsewhere;
    ghost var before := buffer[..];
    buffer[sep] := ',';
    OneChanged(buffer[..], before, sep);
    CStringElsewhere(buffer[..], before, sep + 1, sep, sep + 1);
    input := ReadString(buffer, sep + 1);
  }

  lemma OneChanged(buffer: seq<char>, before: seq<char>, at: nat)
    requires at < |before| && buffer == before[at := ',']
    ensures Elsewhere(buffer, before, at, at + 1)
  {
  }
}
