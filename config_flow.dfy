/**
 * The config flow and the options flow (config_flow.py): the user step, the import of a
 * YAML configuration, and the options form with its comma-separated container list.
 */
module ConfigFlow {
  import opened Wrappers
  import opened Text
  import opened Const

  /** What a config-flow step returns: a form to show, or a new entry's title, data and options. */
  datatype FlowResult<V> = ShowForm(stepId: string) | CreateEntry(title: V, data: map<string, V>, options: map<string, V>)

  /**
   * `async_step_user`: with no input, the user form; with input, an entry whose data is the
   * input and whose title is its name. The form's schema makes the name required.
   */
  function UserStep<V>(userInput: Option<map<string, V>>): (r: FlowResult<V>)
    requires userInput.Some? ==> NameKey in userInput.value
    ensures userInput.None? <==> r == ShowForm("user")
    ensures userInput.Some? ==>
      r.CreateEntry? && r.data == userInput.value && r.options == map[] && r.title == userInput.value[NameKey]
  {
    if userInput.None? then ShowForm("user")
    else CreateEntry(userInput.value[NameKey], userInput.value, map[])
  }

  /** The options an import creates: the option keys the YAML configuration has. */
  function ImportOptions<V>(importConfig: map<string, V>): (options: map<string, V>)
    ensures forall key :: key in options <==> key in importConfig && key in OptionKeys
    ensures forall key :: key in options ==> options[key] == importConfig[key]
  {
    map key | key in OptionKeys && key in importConfig :: importConfig[key]
  }

  /** The data an import creates: every other key. */
  function ImportData<V>(importConfig: map<string, V>): (data: map<string, V>)
    ensures forall key :: key in data <==> key in importConfig && key !in OptionKeys
    ensures forall key :: key in data ==> data[key] == importConfig[key]
  {
    map key | key in importConfig && key !in ImportOptions(importConfig) :: importConfig[key]
  }

  /**
   * `async_step_import`: the configuration is split into data and options with no key in
   * both and nothing lost; the options are exactly the option keys present; the title is
   * the name, or `defaultName` (the constant DEFAULT_NAME) when there is none.
   */
  function ImportStep<V>(importConfig: map<string, V>, defaultName: V): (r: FlowResult<V>)
    ensures r.CreateEntry?
    ensures r.options.Keys == importConfig.Keys * {ContainersKey, MonitoredConditionsKey}
    ensures r.data.Keys !! r.options.Keys
    ensures r.data + r.options == importConfig
    ensures r.title == if NameKey in importConfig then importConfig[NameKey] else defaultName
  {
    var options := ImportOptions(importConfig);
    var data := ImportData(importConfig);
    assert forall k :: k in OptionKeys <==> k == ContainersKey || k == MonitoredConditionsKey;
    assert (data + options).Keys == importConfig.Keys;
    CreateEntry(if NameKey in data then data[NameKey] else defaultName, data, options)
  }

  // ---------------------------------------------------------------------------
  // The options flow

  /** `[p.strip() for p in pieces if p.strip()]` */
  function CleanPieces(pieces: seq<string>): (names: seq<string>)
    ensures |names| <= |pieces|
    ensures forall i :: 0 <= i < |names| ==> names[i] != [] && IsStripped(names[i])
    ensures (forall i :: 0 <= i < |pieces| ==> ',' !in pieces[i]) ==> forall i :: 0 <= i < |names| ==> ',' !in names[i]
    decreases |pieces|
  {
    if pieces == [] then []
    else
      var t := Strip(pieces[0]);
      assert ',' !in pieces[0] ==> ',' !in t by {
        StripIn(pieces[0], ',');
      }
      var rest := CleanPieces(pieces[1..]);
      assert forall i :: 1 <= i < |pieces| ==> pieces[1..][i - 1] == pieces[i];
      (if t != [] then [t] else []) + rest
  }

  /**
   * The container names parsed from the options form: the comma-separated pieces, stripped,
   * empty ones dropped, in order. Every name is non-empty, stripped and comma-free, and a
   * missing field gives no names.
   */
  function ParseContainers(field: Option<string>): (names: seq<string>)
    ensures forall i :: 0 <= i < |names| ==> names[i] != [] && IsStripped(names[i]) && ',' !in names[i]
    ensures field.None? ==> names == []
    ensures field.Some? && ',' !in field.value ==>
      names == if AllSpace(field.value) then [] else [Strip(field.value)]
  {
    var pieces := Split(field.GetOr(""), ',');
    assert forall i :: 0 <= i < |pieces| ==> ',' !in pieces[i];
    assert ',' !in field.GetOr("") ==> CleanPieces(pieces) == CleanPieces([field.GetOr("")]) by {
      if ',' !in field.GetOr("") {
        SplitSingle(field.GetOr(""), ',');
      }
    }
    assert CleanPieces([field.GetOr("")]) == if Strip(field.GetOr("")) != [] then [Strip(field.GetOr(""))] else [] by {
      CleanPiecesOne(field.GetOr(""));
    }
    CleanPieces(pieces)
  }

  /** A single piece is kept, stripped, exactly when it is not all whitespace. */
  lemma CleanPiecesOne(piece: string)
    ensures CleanPieces([piece]) == if Strip(piece) != [] then [Strip(piece)] else []
  {
    assert [piece][1..] == [];
  }

  /** What the first piece contributes: its stripped text, unless that is empty. */
  function Kept(piece: string): (names: seq<string>)
    ensures names == [] || names == [Strip(piece)]
    ensures names == [Strip(piece)] <==> Strip(piece) != []
  {
    if Strip(piece) != [] then [Strip(piece)] else []
  }

  lemma CleanPiecesUnfold(a: seq<string>, b: seq<string>)
    requires a != []
    ensures CleanPieces(a) == Kept(a[0]) + CleanPieces(a[1..])
    ensures CleanPieces(a + b) == Kept(a[0]) + CleanPieces(a[1..] + b)
  {
    assert (a + b)[0] == a[0];
    assert (a + b)[1..] == a[1..] + b;
  }

  lemma AppendAssoc<T>(h: seq<T>, x: seq<T>, y: seq<T>)
    ensures h + (x + y) == (h + x) + y
  {
  }

  /** Cleaning works piece by piece: the names of two runs of pieces are the names of each, in order. */
  lemma {:induction false} CleanPiecesAppend(a: seq<string>, b: seq<string>)
    ensures CleanPieces(a + b) == CleanPieces(a) + CleanPieces(b)
    decreases |a|
  {
    if a == [] {
      assert a + b == b;
    } else {
      CleanPiecesUnfold(a, b);
      CleanPiecesAppend(a[1..], b);
      AppendAssoc(Kept(a[0]), CleanPieces(a[1..]), CleanPieces(b));
    }
  }

  /** Every piece, stripped. */
  function StripEach(pieces: seq<string>): (names: seq<string>)
    ensures |names| == |pieces|
  {
    seq(|pieces|, i requires 0 <= i < |pieces| => Strip(pieces[i]))
  }

  lemma StripEachCons(pieces: seq<string>)
    requires pieces != []
    ensures StripEach(pieces) == [Strip(pieces[0])] + StripEach(pieces[1..])
  {
  }

  /** When no piece is blank, every piece is kept, stripped, at its own position. */
  lemma {:induction false} CleanPiecesNoBlank(pieces: seq<string>)
    requires forall i :: 0 <= i < |pieces| ==> Strip(pieces[i]) != []
    ensures CleanPieces(pieces) == StripEach(pieces)
    decreases |pieces|
  {
    if pieces != [] {
      var rest := pieces[1..];
      assert forall i :: 0 <= i < |rest| ==> Strip(rest[i]) != [] by {
        assert forall i :: 0 <= i < |rest| ==> rest[i] == pieces[i + 1];
      }
      CleanPiecesNoBlank(rest);
      CleanPiecesUnfold(pieces, []);
      StripEachCons(pieces);
    }
  }

  /** Whatever is typed is read as the comma-joined pieces: the names are those pieces, cleaned. */
  lemma ParseCommaJoined(pieces: seq<string>)
    requires |pieces| >= 1
    requires forall i :: 0 <= i < |pieces| ==> ',' !in pieces[i]
    ensures ParseContainers(Some(Join(pieces, ","))) == CleanPieces(pieces)
  {
    SplitJoin(pieces, ',');
  }

  lemma StripExamples()
    ensures Strip(" a ") == "a" && Strip("") == [] && Strip(" b") == "b"
  {
    assert LeadingSpace(" a ") == 1 && TrailingSpace("a ") == 1;
    assert LeadingSpace(" b") == 1 && TrailingSpace("b") == 0;
  }

  /** Two names around a blank piece: the blank piece is dropped, the others kept stripped, in order. */
  lemma CleanAroundBlank(a: string, blank: string, b: string)
    requires Strip(a) != [] && Strip(blank) == [] && Strip(b) != []
    ensures CleanPieces([a, blank, b]) == [Strip(a), Strip(b)]
  {
    var last := CleanPieces([b]);
    assert last == [Strip(b)] by {
      CleanPiecesUnfold([b], []);
      assert [b][1..] == [];
    }
    var tail := CleanPieces([blank, b]);
    assert tail == last by {
      CleanPiecesUnfold([blank, b], []);
      assert [blank, b][1..] == [b];
    }
    assert CleanPieces([a, blank, b]) == [Strip(a)] + tail by {
      CleanPiecesUnfold([a, blank, b], []);
      assert [a, blank, b][1..] == [blank, b];
    }
  }

  /** `" a ,, b"` gives the names `a` and `b`: stripped, the blank piece dropped, in order. */
  lemma ParseExample()
    ensures ParseContainers(Some(" a ,, b")) == ["a", "b"]
  {
    var pieces := [" a ", "", " b"];
    var field := Join(pieces, ",");
    assert field == " a ,, b" by {
      assert Join(pieces[1..], ",") == ", b";
    }
    ParseCommaJoined(pieces);
    StripExamples();
    CleanAroundBlank(" a ", "", " b");
  }

  /** The default the options form shows for the containers: the stored names joined by ", ". */
  function ExistingContainers(stored: Option<seq<string>>): (s: string)
    ensures stored.None? || stored.value == [] ==> s == ""
    ensures stored.Some? && |stored.value| == 1 ==> s == stored.value[0]
    ensures stored.Some? && |stored.value| > 1 ==> stored.value[0] + ", " <= s
  {
    Join(stored.GetOr([]), ", ")
  }

  /** A name the options form can carry through a round trip. */
  predicate PlainName(name: string) {
    name != [] && IsStripped(name) && ',' !in name
  }

  lemma {:induction false} CleanPiecesLeadingSpace(pieces: seq<string>)
    requires |pieces| >= 1
    ensures CleanPieces([[' '] + pieces[0]] + pieces[1..]) == CleanPieces(pieces)
  {
    StripLeadingSpace(pieces[0]);
    assert ([[' '] + pieces[0]] + pieces[1..])[1..] == pieces[1..];
  }

  lemma CleanPiecesPlainHead(name: string, pieces: seq<string>)
    requires PlainName(name)
    ensures CleanPieces([name] + pieces) == [name] + CleanPieces(pieces)
  {
    assert ([name] + pieces)[1..] == pieces;
  }

  lemma JoinCommaSpace(names: seq<string>)
    requires |names| > 1
    ensures Join(names, ", ") == names[0] + [','] + ([' '] + Join(names[1..], ", "))
  {
  }

  /** One step of the round trip: a plain name in front of a list that already round-trips. */
  lemma RoundTripStep(name: string, rest: seq<string>)
    requires PlainName(name) && |rest| >= 1
    requires CleanPieces(Split(Join(rest, ", "), ',')) == rest
    ensures CleanPieces(Split(Join([name] + rest, ", "), ',')) == [name] + rest
  {
    var names := [name] + rest;
    assert names[1..] == rest;
    var tail := Join(rest, ", ");
    var pieces := Split(tail, ',');
    JoinCommaSpace(names);
    SplitAfterFirst(name, ',', [' '] + tail);
    var spaced := Split([' '] + tail, ',');
    SplitLeadingOther(' ', tail, ',');
    CleanPiecesLeadingSpace(pieces);
    CleanPiecesPlainHead(name, spaced);
  }

  /** An empty container field gives no names. */
  lemma EmptyFieldParsesEmpty()
    ensures CleanPieces(Split([], ',')) == []
  {
    var pieces: seq<string> := [[]];
    assert Split([], ',') == pieces;
    assert Strip([]) == [];
    assert pieces[1..] == [];
  }

  /** A single plain name round-trips. */
  lemma SingleNameRoundTrip(name: string)
    requires PlainName(name)
    ensures CleanPieces(Split(Join([name], ", "), ',')) == [name]
  {
    SplitSingle(name, ',');
    CleanPiecesPlainHead(name, []);
  }

  lemma {:induction false} CleanSplitJoin(names: seq<string>)
    requires forall i :: 0 <= i < |names| ==> PlainName(names[i])
    ensures CleanPieces(Split(Join(names, ", "), ',')) == names
    decreases |names|
  {
    if names == [] {
      EmptyFieldParsesEmpty();
    } else if |names| == 1 {
      SingleNameRoundTrip(names[0]);
    } else {
      var rest := names[1..];
      CleanSplitJoin(rest);
      RoundTripStep(names[0], rest);
      assert [names[0]] + rest == names;
    }
  }

  /** Parsing a list the form displayed gives back that list. */
  lemma ParseJoinRoundTrip(names: seq<string>)
    requires forall i :: 0 <= i < |names| ==> PlainName(names[i])
    ensures ParseContainers(Some(Join(names, ", "))) == names
  {
    CleanSplitJoin(names);
  }

  /** What the options form receives: the two fields, each possibly absent. */
  datatype OptionsInput = OptionsInput(containers: Option<string>, monitored: Option<seq<string>>)

  /** The options form with its defaults, or the new options. */
  datatype OptionsResult =
    | OptionsForm(containersDefault: string, monitoredDefault: seq<string>)
    | OptionsEntry(title: string, containers: seq<string>, monitored: seq<string>)

  /**
   * `async_step_init`: with input, new options with the parsed containers and the chosen
   * conditions (none when the field is missing); without, the form, defaulting to the stored
   * names joined by ", " and to the stored conditions or else the full list.
   */
  function OptionsStep(input: Option<OptionsInput>, stored: Option<seq<string>>, storedMonitored: Option<seq<string>>,
                       allConditions: seq<string>): (r: OptionsResult)
    ensures input.Some? <==> r.OptionsEntry?
    ensures input.Some? ==>
      && r.title == ""
      && r.containers == ParseContainers(input.value.containers)
      && r.monitored == input.value.monitored.GetOr([])
    ensures input.None? ==>
      && r.containersDefault == ExistingContainers(stored)
      && r.monitoredDefault == storedMonitored.GetOr(allConditions)
  {
    match input
    case Some(userInput) =>
      OptionsEntry("", ParseContainers(userInput.containers), userInput.monitored.GetOr([]))
    case None =>
      OptionsForm(ExistingContainers(stored), storedMonitored.GetOr(allConditions))
  }

  /** Submitting the options form with its defaults unchanged stores the same options again. */
  lemma OptionsFormRoundTrip(stored: seq<string>, storedMonitored: Option<seq<string>>, allConditions: seq<string>)
    requires forall i :: 0 <= i < |stored| ==> PlainName(stored[i])
    ensures var form := OptionsStep(None, Some(stored), storedMonitored, allConditions);
      OptionsStep(Some(OptionsInput(Some(form.containersDefault), Some(form.monitoredDefault))), Some(stored), storedMonitored, allConditions)
        == OptionsEntry("", stored, storedMonitored.GetOr(allConditions))
  {
    ParseJoinRoundTrip(stored);
  }
}
