/** The answer to a coding question: one object that keeps a submission for each language. */
module CodingAnswers {
  import opened Wrappers
  import Text

  /** A JSON-like value; `Scalar` is a number or a Boolean, an array is an object with indices for names. */
  datatype Value = Undefined | Null | Str(s: string) | Scalar(truthy: bool, id: int) | Object(fields: Fields)

  type Fields = map<string, Value>

  predicate Truthy(v: Value) {
    v.Object? || (v.Str? && v.s != "") || (v.Scalar? && v.truthy)
  }

  /** `v[name]`, and `v.name`, of a value that is not null or undefined. */
  function Get(v: Value, name: string): Value {
    if v.Object? && name in v.fields then v.fields[name] else Undefined
  }

  /** `{...v}`; a string gives its characters by index. */
  function Spread(v: Value): Fields {
    match v
    case Object(fields) => fields
    case Str(s) => SpreadText(s)
    case _ => map[]
  }

  function SpreadText(s: string): Fields {
    if s == "" then map[]
    else SpreadText(s[..|s| - 1])[Text.Print(|s| - 1, 10) := Str(s[|s| - 1..])]
  }

  // ----- Language ids -----

  function NormalizeLanguageId(languageId: string): string {
    var normalized := Text.Lower(languageId);
    if normalized in {"c++", "cplusplus", "cxx"} then "cpp"
    else if normalized == "js" then "javascript"
    else if normalized == "py" then "python"
    else normalized
  }

  /** Upper and lower case do not matter, C++, JavaScript and Python have short names, and no other language has one. */
  lemma NormalizedIs(languageId: string)
    ensures var id, lower := NormalizeLanguageId(languageId), Text.Lower(languageId);
      && (id == "cpp" <==> lower == "cpp" || lower == "c++" || lower == "cplusplus" || lower == "cxx")
      && (id == "javascript" <==> lower == "javascript" || lower == "js")
      && (id == "python" <==> lower == "python" || lower == "py")
      && (id != "cpp" && id != "javascript" && id != "python" ==> id == lower)
  {
  }

  /** The same, of a value: None when it throws, because there is no `toLowerCase` on it. */
  function NormalizeValue(v: Value): Option<string> {
    if !Truthy(v) then Some("")
    else if v.Str? then Some(NormalizeLanguageId(v.s))
    else None
  }

  lemma NormalizeTwice(languageId: string)
    ensures NormalizeLanguageId(NormalizeLanguageId(languageId)) == NormalizeLanguageId(languageId)
  {
    var normalized := Text.Lower(languageId);
    assert Text.Lower(normalized) == normalized;
    assert Text.Lower("cpp") == "cpp" && Text.Lower("javascript") == "javascript" && Text.Lower("python") == "python";
  }

  // ----- Reading and merging -----

  function GetLanguageSubmissions(ans: Value): Fields {
    var byLang := Get(ans, "languageSubmissions");
    if byLang.Object? then byLang.fields else map[]
  }

  /** None when it throws: `ans.languageId` is neither a string nor empty. */
  function GetLanguageAnswer(ans: Value, langId: string): Option<Value> {
    if !Truthy(ans) then Some(Null)
    else if ans.Str? then Some(Object(map["code" := ans]))
    else
      var normalizedLangId := NormalizeLanguageId(langId);
      var byLang := Object(GetLanguageSubmissions(ans));
      if Get(byLang, normalizedLangId).Object? then Some(Get(byLang, normalizedLangId))
      else if Get(byLang, langId).Object? then Some(Get(byLang, langId))
      else
        var own := NormalizeValue(Get(ans, "languageId"));
        if own.None? then None
        else if own.value == normalizedLangId || Get(ans, "languageId") == Str(langId) then Some(ans)
        else Some(Null)
  }

  function BuildMergedCodingAnswer(baseAnswer: Value, langId: string, next: Fields): Value {
    var normalizedLangId := NormalizeLanguageId(langId);
    var base := if baseAnswer.Object? then baseAnswer.fields else map[];
    var existingByLang := GetLanguageSubmissions(baseAnswer);
    var entry := Spread(Get(Object(existingByLang), normalizedLangId)) + next;
    var stored := Object(entry["languageId" := Str(normalizedLangId)]);
    Object((base + next)
             ["languageId" := Str(normalizedLangId)]
             ["code" := Get(Object(next), "code")]
             ["results" := Get(Object(next), "results")]
             ["languageSubmissions" := Object(existingByLang[normalizedLangId := stored])])
  }

  /** An empty answer reads nothing, and a text is the code in every language. */
  lemma PlainAnswers(ans: Value, langId: string)
    ensures ans in {Undefined, Null, Str("")} || (ans.Scalar? && !ans.truthy) ==>
      GetLanguageAnswer(ans, langId) == Some(Null)
    ensures ans.Str? && ans.s != "" ==> GetLanguageAnswer(ans, langId) == Some(Object(map["code" := ans]))
  {
  }

  /** Reading throws exactly when it comes to a language id that is neither a text nor empty. */
  lemma ThrowsIff(ans: Value, langId: string)
    ensures GetLanguageAnswer(ans, langId).None? <==>
      && (ans.Object? || (ans.Scalar? && ans.truthy))
      && !Get(Object(GetLanguageSubmissions(ans)), NormalizeLanguageId(langId)).Object?
      && !Get(Object(GetLanguageSubmissions(ans)), langId).Object?
      && var own := Get(ans, "languageId"); own.Object? || (own.Scalar? && own.truthy)
  {
  }

  /** A merge leaves every other field as it was, unless the write has it. */
  lemma MergeKeepsOthers(ans: Value, langId: string, next: Fields, name: string)
    requires name != "languageId" && name != "code" && name != "results" && name != "languageSubmissions"
    ensures Get(BuildMergedCodingAnswer(ans, langId, next), name)
      == if name in next then next[name] else if ans.Object? then Get(ans, name) else Undefined
  {
  }

  /** A text spreads into its characters by index. */
  lemma {:induction false} SpreadTextIs(s: string, i: nat)
    requires i < |s|
    ensures Text.Print(i, 10) in SpreadText(s) && SpreadText(s)[Text.Print(i, 10)] == Str([s[i]])
    decreases |s|
  {
    var n := |s| - 1;
    if i < n {
      SpreadTextIs(s[..n], i);
      Text.ValueOfPrint(i, 10);
      Text.ValueOfPrint(n, 10);
    } else {
      assert s[n..] == [s[n]];
    }
  }

  // ----- Any sequence of merges -----

  datatype Write = Write(langId: string, next: Fields)

  function Merge(ans: Value, ws: seq<Write>): Value {
    if ws == [] then ans
    else BuildMergedCodingAnswer(Merge(ans, ws[..|ws| - 1]), ws[|ws| - 1].langId, ws[|ws| - 1].next)
  }

  /** The writes to one language. */
  function To(ws: seq<Write>, language: string): seq<Fields> {
    if ws == [] then []
    else To(ws[..|ws| - 1], language)
         + if NormalizeLanguageId(ws[|ws| - 1].langId) == language then [ws[|ws| - 1].next] else []
  }

  /** Later fields over earlier ones. */
  function Overlay(first: Fields, rest: seq<Fields>): Fields {
    if rest == [] then first else Overlay(first, rest[..|rest| - 1]) + rest[|rest| - 1]
  }

  /** What is kept for a language. */
  function Entry(ans: Value, language: string): Value {
    Get(Object(GetLanguageSubmissions(ans)), language)
  }

  lemma MergeOnce(ans: Value, langId: string, next: Fields, language: string)
    ensures var normalized := NormalizeLanguageId(langId);
      Entry(BuildMergedCodingAnswer(ans, langId, next), language) ==
        if language == normalized then Object((Spread(Entry(ans, language)) + next)["languageId" := Str(language)])
        else Entry(ans, language)
  {
  }

  /** What a language that had `first` should have after the writes `own` to it: later fields over earlier ones. */
  function Written(first: Value, own: seq<Fields>, language: string): Value {
    if own == [] then first else Object(Overlay(Spread(first), own)["languageId" := Str(language)])
  }

  lemma WrittenNext(first: Value, own: seq<Fields>, next: Fields, language: string)
    ensures Written(first, own + [next], language)
      == Object((Spread(Written(first, own, language)) + next)["languageId" := Str(language)])
  {
    assert (own + [next])[..|own|] == own;
    assert Overlay(Spread(first), own + [next]) == Overlay(Spread(first), own) + next;
    if own != [] {
      LanguageIdLast(Overlay(Spread(first), own), next, Str(language));
    }
  }

  /**
   After any sequence of merges a language has exactly what was written to it, over what it had
   at first, whatever was written to others; a language never written to keeps its entry.
   */
  lemma {:induction false} EntryAfterMerges(ans: Value, ws: seq<Write>, language: string)
    ensures Entry(Merge(ans, ws), language) == Written(Entry(ans, language), To(ws, language), language)
    decreases |ws|
  {
    if ws != [] {
      var init, last := ws[..|ws| - 1], ws[|ws| - 1];
      EntryAfterMerges(ans, init, language);
      MergeOnce(Merge(ans, init), last.langId, last.next, language);
      if NormalizeLanguageId(last.langId) == language {
        WrittenNext(Entry(ans, language), To(init, language), last.next, language);
        assert To(ws, language) == To(init, language) + [last.next];
      } else {
        assert To(ws, language) == To(init, language);
      }
    }
  }

  lemma LanguageIdLast(earlier: Fields, next: Fields, id: Value)
    ensures (earlier["languageId" := id] + next)["languageId" := id] == (earlier + next)["languageId" := id]
  {
  }

  /** Whatever its spelling, a language that was written to reads back the code written to it last. */
  lemma LastCodeIsRead(ans: Value, before: seq<Write>, write: Write, after: seq<Write>, langId: string)
    requires "code" in write.next && NormalizeLanguageId(write.langId) == NormalizeLanguageId(langId)
    requires forall w :: w in after ==> NormalizeLanguageId(w.langId) != NormalizeLanguageId(langId)
    ensures var read := GetLanguageAnswer(Merge(ans, before + [write] + after), langId);
      && read.Some?
      && Get(read.value, "code") == write.next["code"]
      && Get(read.value, "languageId") == Str(NormalizeLanguageId(langId))
  {
    var language := NormalizeLanguageId(langId);
    var ws := before + [write] + after;
    EntryAfterMerges(ans, ws, language);
    ToOthers(before + [write], after, language);
    assert (before + [write])[..|before|] == before;
    var own := To(ws, language);
    assert own == To(before, language) + [write.next];
    assert own[..|own| - 1] == To(before, language);
    MergeIsObject(ans, ws);
  }

  lemma {:induction false} ToOthers(ws: seq<Write>, others: seq<Write>, language: string)
    requires forall w :: w in others ==> NormalizeLanguageId(w.langId) != language
    ensures To(ws + others, language) == To(ws, language)
    decreases |others|
  {
    if others == [] {
      assert ws + others == ws;
    } else {
      var n := |others| - 1;
      ToOthers(ws, others[..n], language);
      assert (ws + others)[..|ws + others| - 1] == ws + others[..n];
      assert others[n] in others;
    }
  }

  lemma MergeIsObject(ans: Value, ws: seq<Write>)
    requires ws != []
    ensures Merge(ans, ws).Object?
  {
  }

  /** The answer itself, which older readers look at, is the last write's: its language, code and results. */
  lemma TopLevelIsLastWrite(ans: Value, ws: seq<Write>, write: Write)
    ensures var merged := Merge(ans, ws + [write]);
      && Get(merged, "languageId") == Str(NormalizeLanguageId(write.langId))
      && Get(merged, "code") == Get(Object(write.next), "code")
      && Get(merged, "results") == Get(Object(write.next), "results")
  {
    assert (ws + [write])[..|ws|] == ws;
  }

  lemma ReadsNothing(ans: Value, id: string, langId: string)
    requires ans.Object? && Get(ans, "languageId") == Str(id) && NormalizeLanguageId(id) == id
    requires id != NormalizeLanguageId(langId) && id != langId
    requires !Entry(ans, NormalizeLanguageId(langId)).Object? && !Entry(ans, langId).Object?
    ensures GetLanguageAnswer(ans, langId) == Some(Null)
  {
    var own := Get(ans, "languageId");
    assert id == "" ==> NormalizeValue(own) == Some(id);
    assert NormalizeValue(own) == Some(id);
  }

  /** A language with no entry and no write reads nothing once another one was written. */
  lemma UnwrittenReadsNothing(ans: Value, ws: seq<Write>, langId: string)
    requires ws != [] && To(ws, NormalizeLanguageId(langId)) == [] && To(ws, langId) == []
    requires !Entry(ans, NormalizeLanguageId(langId)).Object? && !Entry(ans, langId).Object?
    ensures GetLanguageAnswer(Merge(ans, ws), langId) == Some(Null)
  {
    EntryAfterMerges(ans, ws, NormalizeLanguageId(langId));
    EntryAfterMerges(ans, ws, langId);
    var id := LastId(ans, ws);
    LastIsOther(ws, NormalizeLanguageId(langId));
    LastIsOther(ws, langId);
    ReadsNothing(Merge(ans, ws), id, langId);
  }

  lemma LastId(ans: Value, ws: seq<Write>) returns (id: string)
    requires ws != []
    ensures id == NormalizeLanguageId(ws[|ws| - 1].langId) && NormalizeLanguageId(id) == id
    ensures Merge(ans, ws).Object? && Get(Merge(ans, ws), "languageId") == Str(id)
  {
    var last := ws[|ws| - 1];
    id := NormalizeLanguageId(last.langId);
    assert ws == ws[..|ws| - 1] + [last];
    TopLevelIsLastWrite(ans, ws[..|ws| - 1], last);
    MergeIsObject(ans, ws);
    NormalizeTwice(last.langId);
  }

  lemma LastIsOther(ws: seq<Write>, language: string)
    requires ws != [] && To(ws, language) == []
    ensures NormalizeLanguageId(ws[|ws| - 1].langId) != language
  {
  }

  /** An answer from before there were entries by language is read whole, in its own language only. */
  lemma OldAnswerIsRead(ans: Value, id: string, langId: string)
    requires ans.Object? && GetLanguageSubmissions(ans) == map[] && Get(ans, "languageId") == Str(id)
    ensures GetLanguageAnswer(ans, langId)
      == Some(if NormalizeLanguageId(id) == NormalizeLanguageId(langId) then ans else Null)
  {
    assert id == "" ==> NormalizeLanguageId(id) == "";
  }

  lemma {:induction false} NeverUnnormalised(ws: seq<Write>, langId: string)
    requires NormalizeLanguageId(langId) != langId
    ensures To(ws, langId) == []
  {
    if ws != [] {
      var last := ws[|ws| - 1];
      NeverUnnormalised(ws[..|ws| - 1], langId);
      NormalizeTwice(last.langId);
    }
  }

  /**
   An entry from before ids were normalised is still read, under the id it is kept by, after
   any sequence of merges to other languages.
   */
  lemma OldEntryIsRead(ans: Value, ws: seq<Write>, langId: string)
    requires Entry(ans, langId).Object? && !Entry(ans, NormalizeLanguageId(langId)).Object?
    requires To(ws, NormalizeLanguageId(langId)) == []
    ensures GetLanguageAnswer(Merge(ans, ws), langId) == Some(Entry(ans, langId))
  {
    NeverUnnormalised(ws, langId);
    EntryAfterMerges(ans, ws, langId);
    EntryAfterMerges(ans, ws, NormalizeLanguageId(langId));
    if ws != [] {
      MergeIsObject(ans, ws);
    }
  }

  // ----- The languages on offer -----

  /** The elements in order of first occurrence: `Array.from(new Set(xs))`. */
  function Distinct(xs: seq<string>): (r: seq<string>)
    ensures forall x :: x in r <==> x in xs
    ensures forall i, j :: 0 <= i < j < |r| ==> r[i] != r[j]
  {
    if xs == [] then []
    else
      var init := Distinct(xs[..|xs| - 1]);
      var last := xs[|xs| - 1];
      assert xs == xs[..|xs| - 1] + [last];
      if last in init then init else init + [last]
  }

  function Normalized(ids: seq<string>): seq<string> {
    seq(|ids|, i requires 0 <= i < |ids| => NormalizeLanguageId(ids[i]))
  }

  function Keep(xs: seq<string>, allowed: seq<string>): (r: seq<string>)
    ensures forall x :: x in r <==> x in xs && x in allowed
  {
    if xs == [] then []
    else
      assert xs == [xs[0]] + xs[1..];
      (if xs[0] in allowed then [xs[0]] else []) + Keep(xs[1..], allowed)
  }

  function NonEmpty(xs: seq<string>): (r: seq<string>)
    ensures forall x :: x in r <==> x in xs && x != ""
  {
    if xs == [] then []
    else
      assert xs == [xs[0]] + xs[1..];
      (if xs[0] != "" then [xs[0]] else []) + NonEmpty(xs[1..])
  }

  /** `templates`: the languages a template is given for; `playground`: all the editor knows. */
  function AllowedLangs(configured: seq<string>, templates: seq<string>, playground: seq<string>): seq<string> {
    var templateLangs := Distinct(Normalized(templates));
    var configuredAllowed := NonEmpty(Normalized(configured));
    if configuredAllowed != [] then Distinct(Keep(configuredAllowed, templateLangs) + templateLangs)
    else if templateLangs != [] then templateLangs
    else playground
  }

  lemma {:induction false} NoneKept(xs: seq<string>)
    requires forall i :: 0 <= i < |xs| ==> xs[i] == ""
    ensures NonEmpty(xs) == []
  {
    if xs != [] {
      NoneKept(xs[1..]);
    }
  }

  lemma NothingConfigured(configured: seq<string>)
    requires forall l :: l in configured ==> l == ""
    ensures NonEmpty(Normalized(configured)) == []
  {
    NormalizedIs("");
    assert forall i :: 0 <= i < |configured| ==> configured[i] in configured;
    NoneKept(Normalized(configured));
  }

  lemma InNormalized(ids: seq<string>, l: string)
    ensures l in Normalized(ids) <==> exists i :: 0 <= i < |ids| && l == NormalizeLanguageId(ids[i])
  {
    forall i | 0 <= i < |ids| ensures NormalizeLanguageId(ids[i]) in Normalized(ids) {
      assert Normalized(ids)[i] == NormalizeLanguageId(ids[i]);
    }
  }

  /** With no language configured, those with a template are offered, each once, or all the editor knows. */
  lemma UnconfiguredLanguages(configured: seq<string>, templates: seq<string>, playground: seq<string>)
    requires forall l :: l in configured ==> l == ""
    ensures var langs := AllowedLangs(configured, templates, playground);
      if templates == [] then langs == playground
      else
        && (forall l :: l in langs <==> exists i :: 0 <= i < |templates| && l == NormalizeLanguageId(templates[i]))
        && (forall i, j :: 0 <= i < j < |langs| ==> langs[i] != langs[j])
  {
    NothingConfigured(configured);
    var templateLangs := Distinct(Normalized(templates));
    if templates != [] {
      assert Normalized(templates)[0] in templateLangs;
      forall l
        ensures l in templateLangs <==> exists i :: 0 <= i < |templates| && l == NormalizeLanguageId(templates[i])
      {
        InNormalized(templates, l);
      }
    }
  }

  lemma {:induction false} DistinctPrefix(xs: seq<string>, ys: seq<string>)
    ensures Distinct(xs) <= Distinct(xs + ys)
    decreases |ys|
  {
    if ys == [] {
      assert xs + ys == xs;
    } else {
      DistinctPrefix(xs, ys[..|ys| - 1]);
      assert (xs + ys)[..|xs + ys| - 1] == xs + ys[..|ys| - 1];
    }
  }

  /**
   When languages are configured, those with a template come first, in the configured order,
   and what is offered is each language that has a template, once: so nothing at all, rather
   than the editor's list, when there is no template.
   */
  lemma ConfiguredLanguagesFirst(configured: seq<string>, templates: seq<string>, playground: seq<string>)
    requires NonEmpty(Normalized(configured)) != []
    ensures var langs := AllowedLangs(configured, templates, playground);
      && (forall l :: l in langs <==> l in Normalized(templates))
      && (forall i, j :: 0 <= i < j < |langs| ==> langs[i] != langs[j])
      && Distinct(Keep(NonEmpty(Normalized(configured)), Distinct(Normalized(templates)))) <= langs
      && (langs == [] <==> templates == [])
  {
    var templateLangs := Distinct(Normalized(templates));
    DistinctPrefix(Keep(NonEmpty(Normalized(configured)), templateLangs), templateLangs);
    var langs := AllowedLangs(configured, templates, playground);
    if templates != [] {
      assert Normalized(templates)[0] in langs;
    } else {
      assert Normalized(templates) == [];
      assert forall l :: l in langs ==> l in Normalized(templates);
    }
  }

  /** What the language menu lists: all the editor knows, where nothing is allowed. */
  function MenuLangs(configured: seq<string>, templates: seq<string>, playground: seq<string>): seq<string> {
    var allowed := AllowedLangs(configured, templates, playground);
    if allowed != [] then allowed else playground
  }

  /**
   The configured languages order the menu but do not restrict it: whatever they are, it lists
   the languages that have a template, each once, or with no template all the editor knows.
   */
  lemma MenuIgnoresConfigured(configured: seq<string>, templates: seq<string>, playground: seq<string>)
    ensures var menu := MenuLangs(configured, templates, playground);
      && (templates == [] ==> menu == playground)
      && (templates != [] ==>
            && (forall l :: l in menu <==> l in Normalized(templates))
            && forall i, j :: 0 <= i < j < |menu| ==> menu[i] != menu[j])
  {
    if NonEmpty(Normalized(configured)) != [] {
      ConfiguredLanguagesFirst(configured, templates, playground);
    } else if templates != [] {
      assert Normalized(templates)[0] in Distinct(Normalized(templates));
    } else {
      assert Normalized(templates) == [];
    }
  }
}
