/**
 * Everything the handler does between validating the request and calling
 * the completion endpoint: defaulting the optional fields, looking up the
 * format and tone fragments, writing out the duration and filling in the
 * prompt template.
 */
module Prompt {
  import opened Wrappers
  import opened JsValues

  // ---------------------------------------------------------------------
  // The two fragment tables
  // ---------------------------------------------------------------------

  const FormatPrompts: map<string, string> := map[
    "tutorial" := "Create a tutorial video script. Clear, step-by-step instructions.",
    "explainer" := "Create an explainer video script. Educational and informative.",
    "review" := "Create a product/service review script. Balanced and honest.",
    "vlog" := "Create a vlog script. Personal, conversational, engaging.",
    "shorts" := "Create a short-form video script (under 60 seconds). Quick, punchy, viral-worthy."
  ]

  const TonePrompts: map<string, string> := map[
    "professional" := "Professional, formal tone",
    "casual" := "Casual, friendly tone",
    "exciting" := "Exciting, energetic tone",
    "educational" := "Educational, clear tone"
  ]

  const DefaultFormat := "tutorial"
  const DefaultTone := "professional"
  const NoDescription := "No description provided"
  const DefaultDuration := 180

  /** The format name the handler works with: the request's, unless that is falsy. */
  function SelectedFormat(format: Option<string>): (selected: string)
    ensures selected != ""
    ensures Truthy(format) ==> selected == format.value
    ensures !Truthy(format) ==> selected == DefaultFormat
  {
    Or(format, DefaultFormat)
  }

  /** The tone name the handler works with: the request's, unless that is falsy. */
  function SelectedTone(tone: Option<string>): (selected: string)
    ensures selected != ""
    ensures Truthy(tone) ==> selected == tone.value
    ensures !Truthy(tone) ==> selected == DefaultTone
  {
    Or(tone, DefaultTone)
  }

  /** An own-key lookup in a fragment table. */
  function Lookup(table: map<string, string>, key: string): Option<string> {
    if key in table then Some(table[key]) else None
  }

  /**
   * The format fragment for a selected format name, falling back to the
   * tutorial fragment for every name that is not one of the five formats.
   */
  function FormatFragment(selected: string): (fragment: string)
    ensures selected in FormatPrompts ==> fragment == FormatPrompts[selected]
    ensures selected !in FormatPrompts ==> fragment == FormatPrompts[DefaultFormat]
  {
    Or(Lookup(FormatPrompts, selected), FormatPrompts[DefaultFormat])
  }

  /**
   * The tone fragment for a selected tone name, falling back to the
   * professional fragment for every name that is not one of the four tones.
   */
  function ToneFragment(selected: string): (fragment: string)
    ensures selected in TonePrompts ==> fragment == TonePrompts[selected]
    ensures selected !in TonePrompts ==> fragment == TonePrompts[DefaultTone]
  {
    Or(Lookup(TonePrompts, selected), TonePrompts[DefaultTone])
  }

  /** Whatever the request says, the chosen fragments are entries of their tables. */
  lemma FragmentsAlwaysFromTables(format: Option<string>, tone: Option<string>)
    ensures FormatFragment(SelectedFormat(format)) in FormatPrompts.Values
    ensures ToneFragment(SelectedTone(tone)) in TonePrompts.Values
  {

  }

  // ---------------------------------------------------------------------
  // The lookup as the JavaScript object literal performs it
  // ---------------------------------------------------------------------

  /** The properties every object literal inherits from `Object.prototype`. */
  const ObjectPrototypeMembers: set<string> := {
    "constructor", "hasOwnProperty", "isPrototypeOf", "propertyIsEnumerable",
    "toString", "toLocaleString", "valueOf", "__proto__",
    "__defineGetter__", "__defineSetter__", "__lookupGetter__", "__lookupSetter__"
  }

  /** The value of `table[key]` on a plain object: own, inherited (a function or an object) or undefined. */
  datatype Property = Undefined | Own(value: string) | Inherited(name: string)

  predicate IsTruthyProperty(p: Property) {
    match p
    case Undefined => false
    case Own(v) => v != ""
    case Inherited(_) => true
  }

  function GetProperty(table: map<string, string>, key: string): Property {
    if key in table then Own(table[key])
    else if key in ObjectPrototypeMembers then Inherited(key)
    else Undefined
  }

  /** `table[key] || fallback` with the inherited members taken into account. */
  function FormatFragmentAsWritten(selected: string): (p: Property)
    ensures p.Own? || p.Inherited?
  {
    var p := GetProperty(FormatPrompts, selected);
    if IsTruthyProperty(p) then p else Own(FormatPrompts[DefaultFormat])
  }

  function ToneFragmentAsWritten(selected: string): (p: Property)
    ensures p.Own? || p.Inherited?
  {
    var p := GetProperty(TonePrompts, selected);
    if IsTruthyProperty(p) then p else Own(TonePrompts[DefaultTone])
  }

  /**
   * A request with format "constructor" (or tone "constructor") names no
   * table entry, yet the as-written lookup does not fall back: it yields
   * the inherited `Object` function, whose source text ends up in the prompt.
   */
  lemma InheritedKeySkipsFallback()
    ensures "constructor" !in FormatPrompts && "constructor" !in TonePrompts
    ensures FormatFragmentAsWritten("constructor") == Inherited("constructor")
    ensures FormatFragmentAsWritten("constructor") != Own(FormatPrompts[DefaultFormat])
    ensures ToneFragmentAsWritten("constructor") == Inherited("constructor")
    ensures ToneFragmentAsWritten("constructor") != Own(TonePrompts[DefaultTone])
  {
  }

  /** Off the inherited member names, the as-written lookup and the corrected one agree. */
  lemma AsWrittenAgreesOffPrototype(selected: string)
    requires selected !in ObjectPrototypeMembers
    ensures FormatFragmentAsWritten(selected) == Own(FormatFragment(selected))
    ensures ToneFragmentAsWritten(selected) == Own(ToneFragment(selected))
  {

  }

  /** On exactly the inherited member names the as-written lookup misses the fallback. */
  lemma AsWrittenMissesFallbackOnPrototype(selected: string)
    requires selected in ObjectPrototypeMembers
    ensures FormatFragmentAsWritten(selected) == Inherited(selected)
    ensures ToneFragmentAsWritten(selected) == Inherited(selected)
  {

  }

  // ---------------------------------------------------------------------
  // Duration
  // ---------------------------------------------------------------------

  /**
   * `parseInt(duration) || 180`, with the parse given as `None` for NaN:
   * NaN and 0 become 180, every other integer (negative ones too) is kept.
   */
  function DurationSeconds(parsed: Option<int>): (seconds: int)
    ensures seconds != 0
    ensures parsed.Some? && parsed.value != 0 ==> seconds == parsed.value
    ensures parsed.None? || parsed.value == 0 ==> seconds == DefaultDuration
  {
    match parsed
    case Some(n) => if n != 0 then n else DefaultDuration
    case None => DefaultDuration
  }

  /** Seconds under a minute, else whole minutes rounded down, plural from two minutes on. */
  function DurationText(seconds: int): string {
    if seconds < 60 then IntToString(seconds) + " seconds"
    else IntToString(seconds / 60) + " minute" + (if seconds >= 120 then "s" else "")
  }

  /** What a duration text says: a count of seconds or of minutes. */
  datatype Span = Seconds(count: int) | Minutes(count: int)

  predicate EndsWith(s: string, suffix: string) {
    |suffix| <= |s| && s[|s| - |suffix|..] == suffix
  }

  /** Reads a duration text back: "<n> seconds", "<n> minutes" or "<n> minute". */
  function ReadDuration(text: string): Option<Span> {
    if EndsWith(text, " seconds") then
      match ReadCanonicalInt(text[..|text| - 8])
      case Some(n) => Some(Seconds(n))
      case None => None
    else if EndsWith(text, " minutes") then
      match ReadCanonicalInt(text[..|text| - 8])
      case Some(n) => Some(Minutes(n))
      case None => None
    else if EndsWith(text, " minute") then
      match ReadCanonicalInt(text[..|text| - 7])
      case Some(n) => Some(Minutes(n))
      case None => None
    else None
  }

  /**
   * The duration text states the duration: under 60 its exact number of
   * seconds; from 60 on the whole minutes it contains, in the plural
   * exactly when that is two or more.
   */
  lemma DurationTextReadsBack(seconds: int)
    ensures seconds < 60 ==> ReadDuration(DurationText(seconds)) == Some(Seconds(seconds))
    ensures seconds >= 60 ==>
      var minutes := seconds / 60;
      && ReadDuration(DurationText(seconds)) == Some(Minutes(minutes))
      && 1 <= minutes && 60 * minutes <= seconds < 60 * minutes + 60
    ensures seconds >= 60 ==>
      (EndsWith(DurationText(seconds), "s") <==> seconds / 60 >= 2)
  {
    var t := DurationText(seconds);
    if seconds < 60 {
      var digits := IntToString(seconds);
      assert t[..|t| - 8] == digits;
      assert t[|t| - 8..] == " seconds";
      IntToStringReadsBack(seconds);
    } else {
      var minutes := seconds / 60;
      var digits := IntToString(minutes);
      IntToStringReadsBack(minutes);
      if seconds >= 120 {
        assert t == digits + " minutes";
        assert t[..|t| - 8] == digits;
        assert t[|t| - 8..] == " minutes";
        assert t[|t| - 1..] == "s";
      } else {
        assert t == digits + " minute";
        assert t[..|t| - 7] == digits;
        assert t[|t| - 7..] == " minute";
        assert t[|t| - 1] == 'e';
        assert t[|t| - 1..] != "s";
      }
    }
  }

  /** The figures a reader of the handler would check by hand. */
  lemma DurationTextExamples()
    ensures DurationText(90) == "1 minute"
    ensures DurationText(180) == "3 minutes"
    ensures DurationText(60) == "1 minute"
    ensures DurationText(119) == "1 minute"
    ensures DurationText(120) == "2 minutes"
    ensures DurationText(45) == "45 seconds"
    ensures DurationText(-5) == "-5 seconds"
  {
    assert IntToString(1) == "1" && IntToString(2) == "2" && IntToString(3) == "3";
    assert IntToString(45) == "45";
    assert IntToString(-5) == "-5";
  }

  /** Numerals a template literal never writes are not read as durations. */
  lemma NonCanonicalDurationRejected()
    ensures ReadDuration("045 seconds") == None
    ensures ReadDuration("-0 seconds") == None
    ensures ReadDuration(" seconds") == None
  {
    assert "045 seconds"[..3] == "045";
    assert "-0 seconds"[..2] == "-0";
    assert " seconds"[..0] == "";
  }

  // ---------------------------------------------------------------------
  // The prompt template
  // ---------------------------------------------------------------------

  function DescriptionText(description: Option<string>): string {
    Or(description, NoDescription)
  }

  /** The first line: duration and topic. */
  function HeaderLine(durationText: string, topic: string): string {
    "Create a " + durationText + " video script about: " + topic
  }

  function DescriptionLine(description: string): string {
    "Description: " + description
  }

  function FormatLine(formatPrompt: string): string {
    "Format: " + formatPrompt
  }

  function ToneLine(tonePrompt: string): string {
    "Tone: " + tonePrompt
  }

  /** The last line, which names the selected tone itself rather than its fragment. */
  function ClosingLine(selectedTone: string): string {
    "Write in a " + selectedTone + " tone. Make it engaging and ready to record."
  }

  /** The fixed three-part outline, with its heading. */
  const Outline: seq<string> := [
    "Structure the script with:",
    "1. HOOK (first 3-5 seconds) - Grab attention",
    "2. MAIN CONTENT - Core message",
    "3. CALL TO ACTION - End strong"
  ]

  /** The template, line by line. */
  function PromptLines(durationText: string, topic: string, description: string,
                       formatPrompt: string, tonePrompt: string, selectedTone: string): seq<string>
  {
    [ HeaderLine(durationText, topic),
      "",
      DescriptionLine(description),
      "",
      FormatLine(formatPrompt),
      ToneLine(tonePrompt),
      "",
      Outline[0], Outline[1], Outline[2], Outline[3],
      "",
      ClosingLine(selectedTone) ]
  }

  /** Lines joined with a newline between each two. */
  function JoinLines(lines: seq<string>): string
    decreases |lines|
  {
    if |lines| == 0 then ""
    else if |lines| == 1 then lines[0]
    else lines[0] + "\n" + JoinLines(lines[1..])
  }

  /** A string cut at every newline; the inverse of JoinLines on newline-free lines. */
  function SplitLines(s: string): (lines: seq<string>)
    ensures |lines| >= 1
    decreases |s|
  {
    if |s| == 0 then [""]
    else if s[0] == '\n' then [""] + SplitLines(s[1..])
    else
      var rest := SplitLines(s[1..]);
      [[s[0]] + rest[0]] + rest[1..]
  }

  predicate SingleLine(s: string) {
    forall i :: 0 <= i < |s| ==> s[i] != '\n'
  }

  lemma {:induction false} SplitSingleLine(a: string)
    requires SingleLine(a)
    ensures SplitLines(a) == [a]
    decreases |a|
  {
    if |a| > 0 {
      SplitSingleLine(a[1..]);
      assert [a[0]] + a[1..] == a;
    }
  }

  lemma {:induction false} SplitAtNewline(a: string, rest: string)
    requires SingleLine(a)
    ensures SplitLines(a + "\n" + rest) == [a] + SplitLines(rest)
    decreases |a|
  {
    var s := a + "\n" + rest;
    if |a| == 0 {
      assert s[0] == '\n' && s[1..] == rest;
    } else {
      assert s[0] == a[0];
      assert s[1..] == a[1..] + "\n" + rest;
      SplitAtNewline(a[1..], rest);
      assert [a[0]] + a[1..] == a;
    }
  }

  /** Splitting joined newline-free lines gives the lines back. */
  lemma {:induction false} SplitJoinLines(lines: seq<string>)
    requires |lines| >= 1
    requires forall i :: 0 <= i < |lines| ==> SingleLine(lines[i])
    ensures SplitLines(JoinLines(lines)) == lines
    decreases |lines|
  {
    if |lines| == 1 {
      SplitSingleLine(lines[0]);
    } else {
      SplitAtNewline(lines[0], JoinLines(lines[1..]));
      SplitJoinLines(lines[1..]);
    }
  }

  /** The last line comes last, after a newline. */
  lemma {:induction false} JoinLinesEndsWithLast(lines: seq<string>)
    requires |lines| >= 2
    ensures JoinLines(lines) == JoinLines(lines[..|lines| - 1]) + "\n" + lines[|lines| - 1]
    decreases |lines|
  {
    if |lines| > 2 {
      JoinLinesEndsWithLast(lines[1..]);
      assert lines[1..][..|lines| - 2] == lines[..|lines| - 1][1..];
    }
  }

  lemma PrefixOfAppend(a: string, b: string)
    ensures |a| <= |a + b| && (a + b)[..|a|] == a
  {
  }

  lemma EndsWithAppend(a: string, b: string)
    ensures EndsWith(a + b, b)
  {
    assert (a + b)[|a + b| - |b|..] == b;
  }

  /**
   * The filled-in template: it opens with the header line and closes with
   * the sentence that asks for the selected tone by name.
   */
  function UserPrompt(durationText: string, topic: string, description: string,
                      formatPrompt: string, tonePrompt: string, selectedTone: string): (prompt: string)
    ensures
      var head := HeaderLine(durationText, topic) + "\n";
      |head| <= |prompt| && prompt[..|head|] == head
    ensures EndsWith(prompt, "\n" + ClosingLine(selectedTone))
  {
    var lines := PromptLines(durationText, topic, description, formatPrompt, tonePrompt, selectedTone);
    var head := HeaderLine(durationText, topic) + "\n";
    var closing := "\n" + ClosingLine(selectedTone);
    var body := JoinLines(lines[1..]);
    assert JoinLines(lines) == head + body;
    PrefixOfAppend(head, body);
    JoinLinesEndsWithLast(lines);
    var front := JoinLines(lines[..12]);
    assert JoinLines(lines) == front + closing;
    EndsWithAppend(front, closing);
    JoinLines(lines)
  }

  lemma SingleLineAppend(a: string, b: string)
    requires SingleLine(a) && SingleLine(b)
    ensures SingleLine(a + b)
  {
  }

  /** Each filled-in line is newline-free when the values put into it are. */
  lemma FilledLinesSingle(durationText: string, topic: string, description: string,
                          formatPrompt: string, tonePrompt: string, selectedTone: string)
    requires SingleLine(durationText) && SingleLine(topic) && SingleLine(description)
    requires SingleLine(formatPrompt) && SingleLine(tonePrompt) && SingleLine(selectedTone)
    ensures SingleLine(HeaderLine(durationText, topic)) && SingleLine(DescriptionLine(description))
    ensures SingleLine(FormatLine(formatPrompt)) && SingleLine(ToneLine(tonePrompt))
    ensures SingleLine(ClosingLine(selectedTone))
  {
    SingleLineAppend("Create a ", durationText);
    SingleLineAppend("Create a " + durationText, " video script about: ");
    SingleLineAppend("Create a " + durationText + " video script about: ", topic);
    SingleLineAppend("Description: ", description);
    SingleLineAppend("Format: ", formatPrompt);
    SingleLineAppend("Tone: ", tonePrompt);
    SingleLineAppend("Write in a ", selectedTone);
    SingleLineAppend("Write in a " + selectedTone, " tone. Make it engaging and ready to record.");
  }

  /** The fixed lines of the template are newline-free. */
  lemma FixedLinesSingle()
    ensures SingleLine("")
    ensures forall i :: 0 <= i < |Outline| ==> SingleLine(Outline[i])
  {
    assert SingleLine(Outline[0]) && SingleLine(Outline[1]);
    assert SingleLine(Outline[2]) && SingleLine(Outline[3]);
  }

  /**
   * When none of the substituted values contains a newline, the prompt is
   * exactly the thirteen template lines: header, description, format, tone,
   * the three-part outline and the closing sentence.
   */
  lemma PromptIsTemplateLines(durationText: string, topic: string, description: string,
                              formatPrompt: string, tonePrompt: string, selectedTone: string)
    requires SingleLine(durationText) && SingleLine(topic) && SingleLine(description)
    requires SingleLine(formatPrompt) && SingleLine(tonePrompt) && SingleLine(selectedTone)
    ensures
      var lines := PromptLines(durationText, topic, description, formatPrompt, tonePrompt, selectedTone);
      && |lines| == 13
      && SplitLines(UserPrompt(durationText, topic, description, formatPrompt, tonePrompt, selectedTone)) == lines
  {
    var lines := PromptLines(durationText, topic, description, formatPrompt, tonePrompt, selectedTone);
    FilledLinesSingle(durationText, topic, description, formatPrompt, tonePrompt, selectedTone);
    FixedLinesSingle();
    forall i | 0 <= i < |lines| ensures SingleLine(lines[i]) {
    }
    SplitJoinLines(lines);
    assert UserPrompt(durationText, topic, description, formatPrompt, tonePrompt, selectedTone)
        == JoinLines(lines);
  }

  /** The template lines filled in from a request's fields, defaults applied. */
  function BuildLines(topic: string, description: Option<string>, duration: Option<int>,
                      format: Option<string>, tone: Option<string>): seq<string>
  {
    var selectedTone := SelectedTone(tone);
    PromptLines(DurationText(DurationSeconds(duration)), topic, DescriptionText(description),
                FormatFragment(SelectedFormat(format)), ToneFragment(selectedTone), selectedTone)
  }

  /** The prompt the handler sends for a request whose topic is present. */
  function BuildPrompt(topic: string, description: Option<string>, duration: Option<int>,
                       format: Option<string>, tone: Option<string>): string
  {
    JoinLines(BuildLines(topic, description, duration, format, tone))
  }

  /**
   * An absent, empty or unknown format or tone never fails: the Format and
   * Tone lines carry the tutorial and professional fragments, while the
   * closing sentence still names the tone the request gave.
   */
  lemma UnknownNamesFallBack(topic: string, description: Option<string>, duration: Option<int>,
                             format: Option<string>, tone: Option<string>)
    requires !Truthy(format) || format.value !in FormatPrompts
    requires !Truthy(tone) || tone.value !in TonePrompts
    ensures BuildLines(topic, description, duration, format, tone)[4] == FormatLine(FormatPrompts[DefaultFormat])
    ensures BuildLines(topic, description, duration, format, tone)[5] == ToneLine(TonePrompts[DefaultTone])
    ensures BuildLines(topic, description, duration, format, tone)[12]
            == ClosingLine(if Truthy(tone) then tone.value else DefaultTone)
  {
    var lines := BuildLines(topic, description, duration, format, tone);
    assert lines[4] == FormatLine(FormatPrompts[DefaultFormat]) by {
      assert lines[4] == FormatLine(FormatFragment(SelectedFormat(format)));
      FormatFallsBack(format);
    }
    assert lines[5] == ToneLine(TonePrompts[DefaultTone]) by {
      assert lines[5] == ToneLine(ToneFragment(SelectedTone(tone)));
      ToneFallsBack(tone);
    }
    assert lines[12] == ClosingLine(SelectedTone(tone));
  }

  lemma FormatFallsBack(format: Option<string>)
    requires !Truthy(format) || format.value !in FormatPrompts
    ensures FormatFragment(SelectedFormat(format)) == FormatPrompts[DefaultFormat]
  {
    if !Truthy(format) {
      assert SelectedFormat(format) == DefaultFormat;
    }
  }

  lemma ToneFallsBack(tone: Option<string>)
    requires !Truthy(tone) || tone.value !in TonePrompts
    ensures ToneFragment(SelectedTone(tone)) == TonePrompts[DefaultTone]
  {
    if !Truthy(tone) {
      assert SelectedTone(tone) == DefaultTone;
    }
  }

  /** A falsy description is replaced by the placeholder on the Description line. */
  lemma MissingDescriptionUsesPlaceholder(topic: string, description: Option<string>, duration: Option<int>,
                                          format: Option<string>, tone: Option<string>)
    requires !Truthy(description)
    ensures BuildLines(topic, description, duration, format, tone)[2] == DescriptionLine(NoDescription)
  {
  }

  /** The prompt opens with the defaulted duration text and the topic. */
  lemma BuildPromptOpensWithTopic(topic: string, description: Option<string>, duration: Option<int>,
                                  format: Option<string>, tone: Option<string>)
    ensures
      var head := HeaderLine(DurationText(DurationSeconds(duration)), topic) + "\n";
      var prompt := BuildPrompt(topic, description, duration, format, tone);
      |head| <= |prompt| && prompt[..|head|] == head
  {
    var selectedTone := SelectedTone(tone);
    assert BuildPrompt(topic, description, duration, format, tone)
        == UserPrompt(DurationText(DurationSeconds(duration)), topic, DescriptionText(description),
                      FormatFragment(SelectedFormat(format)), ToneFragment(selectedTone), selectedTone);
  }

  /** Without a usable duration the prompt asks for a three-minute script. */
  lemma DefaultDurationIsThreeMinutes(duration: Option<int>)
    requires duration.None? || duration == Some(0)
    ensures DurationText(DurationSeconds(duration)) == "3 minutes"
  {
  }
}
