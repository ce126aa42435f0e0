/**
 * The story options panel of app/components/story-options.tsx: radio groups
 * for genre, tone, style and voice, whose choice is stored as a slug, three
 * sliders whose value is stored as its decimal text, and a custom prompt.
 * Every handler builds a fresh options record from the old one.
 */
module StoryOptions {
  import opened Wrappers
  import opened Strings
  import opened Numbers

  /** The `StoryOptions` record; `customPrompt` is optional. */
  datatype Options = Options(
    genre: string, tone: string, style: string, voice: string, refine: string,
    creativity: string, detail: string, complexity: string,
    customPrompt: Option<string>)

  /** The string-valued keys of the record. */
  datatype Key = Genre | Tone | Style | Voice | Refine | Creativity | Detail | Complexity

  /** The tabs of the panel (`CategoryType`), each of them a key of the record. */
  predicate IsCategory(k: Key) {
    k in {Genre, Tone, Style, Voice, Refine}
  }

  /** The record's name of a key. */
  function KeyName(k: Key): string {
    match k
    case Genre => "genre"
    case Tone => "tone"
    case Style => "style"
    case Voice => "voice"
    case Refine => "refine"
    case Creativity => "creativity"
    case Detail => "detail"
    case Complexity => "complexity"
  }

  /** `options[k]` */
  function Field(o: Options, k: Key): string {
    match k
    case Genre => o.genre
    case Tone => o.tone
    case Style => o.style
    case Voice => o.voice
    case Refine => o.refine
    case Creativity => o.creativity
    case Detail => o.detail
    case Complexity => o.complexity
  }

  /** `{...options, [k]: value}`: the one field replaced, everything else kept. */
  function With(o: Options, k: Key, value: string): (r: Options)
    ensures Field(r, k) == value
    ensures forall k' :: k' != k ==> Field(r, k') == Field(o, k')
    ensures r.customPrompt == o.customPrompt
  {
    match k
    case Genre => o.(genre := value)
    case Tone => o.(tone := value)
    case Style => o.(style := value)
    case Voice => o.(voice := value)
    case Refine => o.(refine := value)
    case Creativity => o.(creativity := value)
    case Detail => o.(detail := value)
    case Complexity => o.(complexity := value)
  }

  /** `OPTIONS_CONFIG`: the choices of each tab; the refine tab has sliders instead. */
  function Choices(k: Key): seq<string>
    requires IsCategory(k)
  {
    match k
    case Genre => ["Fantasy", "Sci-Fi", "Thriller", "Romance", "Horror", "Comedy"]
    case Tone => ["Inspirational", "Dramatic", "Sarcastic", "Neutral", "Mysterious", "Humorous"]
    case Style => ["Narrative", "Descriptive", "Expository", "Persuasive", "Poetic", "Conversational"]
    case Voice => ["Natural", "Formal", "Casual", "Professional", "Friendly", "Authoritative"]
    case Refine => []
  }

  /** A slider of the refine tab (`RefinementSlider`). */
  datatype Slider = Slider(id: Key, caption: string, min: int, max: int, step: int, defaultValue: int)

  /** `REFINEMENT_SLIDERS` */
  const SLIDERS: seq<Slider> := [
    Slider(Creativity, "Creativity Level", 0, 100, 5, 50),
    Slider(Detail, "Detail Level", 0, 100, 5, 50),
    Slider(Complexity, "Complexity", 0, 100, 5, 50)
  ]

  /** `.replace(/\s+/g, '-')`: every maximal run of whitespace becomes one hyphen. */
  function Hyphenate(s: string): (r: string)
    ensures NoSpace(r)
    decreases |s|
  {
    if |s| == 0 then ""
    else if IsSpace(s[0]) then
      "-" + Hyphenate(TrimStart(s))
    else [s[0]] + Hyphenate(s[1..])
  }

  /** `value.toLowerCase().replace(/\s+/g, '-')`: a lower-case value with no whitespace. */
  function Slug(value: string): (r: string)
    ensures NoSpace(r)
    ensures forall i :: 0 <= i < |r| ==> !IsUpper(r[i])
  {
    var lower := ToLower(value);
    var r := Hyphenate(lower);
    HyphenateKeepsLower(lower);
    r
  }

  /** Hyphenating introduces no upper-case letter. */
  lemma {:induction false} HyphenateKeepsLower(s: string)
    requires forall i :: 0 <= i < |s| ==> !IsUpper(s[i])
    ensures forall i :: 0 <= i < |Hyphenate(s)| ==> !IsUpper(Hyphenate(s)[i])
    decreases |s|
  {
    if |s| > 0 {
      if IsSpace(s[0]) {
        HyphenateKeepsLower(TrimStart(s));
      } else {
        HyphenateKeepsLower(s[1..]);
      }
    }
  }

  /** Text without whitespace is copied through, so it can be split off in front. */
  lemma {:induction false} HyphenateAfterWord(a: string, b: string)
    requires NoSpace(a)
    ensures Hyphenate(a + b) == a + Hyphenate(b)
    decreases |a|
  {
    if |a| > 0 {
      var s := a + b;
      assert s[0] == a[0] && !IsSpace(s[0]);
      assert s[1..] == a[1..] + b;
      assert Hyphenate(s) == [a[0]] + Hyphenate(a[1..] + b);
      HyphenateAfterWord(a[1..], b);
      assert a == [a[0]] + a[1..];
    } else {
      assert a + b == b;
    }
  }

  /**
   * A word, a run of whitespace of any length, and what follows: the whole run
   * becomes one hyphen between the word and the rest.
   */
  lemma HyphenateRun(word: string, run: string, rest: string)
    requires NoSpace(word)
    requires |run| > 0 && AllSpace(run)
    requires rest == "" || !IsSpace(rest[0])
    ensures Hyphenate(word + run + rest) == word + "-" + Hyphenate(rest)
  {
    HyphenateAfterWord(word, run + rest);
    assert word + run + rest == word + (run + rest);
    TrimStartAfterRun(run, rest);
  }

  /** `trimStart` removes a run of whitespace and stops at the first other character. */
  lemma {:induction false} TrimStartAfterRun(run: string, rest: string)
    requires AllSpace(run)
    requires rest == "" || !IsSpace(rest[0])
    ensures TrimStart(run + rest) == rest
    decreases |run|
  {
    if |run| > 0 {
      assert (run + rest)[1..] == run[1..] + rest;
      TrimStartAfterRun(run[1..], rest);
    } else {
      assert run + rest == rest;
    }
  }

  /** Slugging a slug changes nothing. */
  lemma SlugIdempotent(value: string)
    ensures Slug(Slug(value)) == Slug(value)
  {
    var s := Slug(value);
    assert ToLower(s) == s;
    HyphenateAfterWord(s, "");
    assert s + "" == s;
  }

  /** `handleOptionChange(category, value)`: the slug of the value in that category, nothing else changed. */
  function HandleOptionChange(o: Options, category: Key, value: string): (r: Options)
    ensures Field(r, category) == Slug(value)
    ensures forall k :: k != category ==> Field(r, k) == Field(o, k)
    ensures r.customPrompt == o.customPrompt
  {
    With(o, category, Slug(value))
  }

  /** `handleSliderChange(sliderId, value)`: the value's decimal text in that slider's field, nothing else changed. */
  function HandleSliderChange(o: Options, slider: Key, value: int): (r: Options)
    ensures Field(r, slider) == Numbers.ToString(Int(value))
    ensures forall k :: k != slider ==> Field(r, k) == Field(o, k)
    ensures r.customPrompt == o.customPrompt
  {
    With(o, slider, Numbers.ToString(Int(value)))
  }

  /** The custom prompt's `onChange`: the typed text, nothing else changed. */
  function SetCustomPrompt(o: Options, text: string): (r: Options)
    ensures r.customPrompt == Some(text)
    ensures forall k :: Field(r, k) == Field(o, k)
  {
    o.(customPrompt := Some(text))
  }

  /** `options.customPrompt?.length || 0`, the counter shown against 200. */
  function PromptLength(o: Options): (n: nat)
    ensures o.customPrompt.None? ==> n == 0
    ensures o.customPrompt.Some? ==> n == |o.customPrompt.value|
  {
    match o.customPrompt
    case None => 0
    case Some(p) => |p|
  }

  /** `isSelected`: the stored value is the option's slug. */
  predicate IsSelected(o: Options, category: Key, option: string)
    ensures IsSelected(o, category, option) ==>
              NoSpace(Field(o, category)) && forall i :: 0 <= i < |Field(o, category)| ==> !IsUpper(Field(o, category)[i])
  {
    Field(o, category) == Slug(option)
  }

  /** The text a slider field stands for: its stored text, or the default when it is empty (`||`). */
  function SliderText(o: Options, s: Slider): (t: string)
    ensures Field(o, s.id) != "" ==> t == Field(o, s.id)
    ensures Field(o, s.id) == "" ==> t == Numbers.ToString(Int(s.defaultValue))
  {
    if Field(o, s.id) != "" then Field(o, s.id) else Numbers.ToString(Int(s.defaultValue))
  }

  /** The slider's position: `parseInt` of its text. */
  function SliderValue(o: Options, s: Slider): (n: JsNum)
    ensures Field(o, s.id) == "" ==> n == Int(s.defaultValue)
    ensures Field(o, s.id) != "" ==> n == ParseInt(Field(o, s.id))
  {
    ParseIntToString(s.defaultValue);
    ParseInt(SliderText(o, s))
  }

  /** The label beside the slider: its text followed by `%`. */
  function SliderLabel(o: Options, s: Slider): (caption: string)
    ensures Field(o, s.id) == "" ==> caption == Numbers.ToString(Int(s.defaultValue)) + "%"
    ensures Field(o, s.id) != "" ==> caption == Field(o, s.id) + "%"
  {
    SliderText(o, s) + "%"
  }

  /** After choosing an option, an option of the same tab is shown selected exactly when it has the same slug. */
  lemma ChoiceIsSelected(o: Options, category: Key, chosen: string, option: string)
    ensures IsSelected(HandleOptionChange(o, category, chosen), category, option) <==> Slug(option) == Slug(chosen)
    ensures IsSelected(HandleOptionChange(o, category, chosen), category, chosen)
  {
  }

  /** Two choices differing in their first letter or their length have different slugs. */
  lemma {:induction false} WordSlugsDiffer(a: string, b: string)
    requires NoSpace(a) && NoSpace(b) && |a| > 0 && |b| > 0
    requires IsUpper(a[0]) && IsUpper(b[0])
    requires a[0] != b[0] || |a| != |b|
    ensures Slug(a) != Slug(b)
  {
    LowerCharSpace(a[0]);
    LowerCharSpace(b[0]);
    assert NoSpace(ToLower(a)) by {
      forall i | 0 <= i < |a| ensures !IsSpace(ToLower(a)[i]) { LowerCharSpace(a[i]); }
    }
    assert NoSpace(ToLower(b)) by {
      forall i | 0 <= i < |b| ensures !IsSpace(ToLower(b)[i]) { LowerCharSpace(b[i]); }
    }
    HyphenateAfterWord(ToLower(a), "");
    HyphenateAfterWord(ToLower(b), "");
    assert ToLower(a) + "" == ToLower(a) && ToLower(b) + "" == ToLower(b);
    assert Slug(a) == ToLower(a) && Slug(b) == ToLower(b);
    if |a| == |b| {
      assert ToLower(a)[0] != ToLower(b)[0];
    }
  }

  /** A capitalised word: a capital letter, then letters and hyphens only. */
  predicate IsWord(w: string) {
    |w| > 0 && IsUpper(w[0]) && forall i :: 0 <= i < |w| ==> 'A' <= w[i] <= 'Z' || 'a' <= w[i] <= 'z' || w[i] == '-'
  }

  /** A word holds no whitespace. */
  lemma WordHasNoSpace(w: string)
    requires IsWord(w)
    ensures NoSpace(w)
  {
  }

  /** The options of every tab are capitalised words without whitespace. */
  lemma ChoicesAreWords(category: Key)
    requires IsCategory(category)
    ensures forall i :: 0 <= i < |Choices(category)| ==>
              |Choices(category)[i]| > 0 && NoSpace(Choices(category)[i]) && IsUpper(Choices(category)[i][0])
  {
    var cs := Choices(category);
    match category {
      case Genre => TabOfWords(Genre);
      case Tone => TabOfWords(Tone);
      case Style => TabOfWords(Style);
      case Voice => TabOfWords(Voice);
      case Refine =>
    }
    forall i | 0 <= i < |cs| ensures |cs[i]| > 0 && NoSpace(cs[i]) && IsUpper(cs[i][0]) {
      WordHasNoSpace(cs[i]);
    }
  }

  /** Each option of one tab is a word. */
  lemma TabOfWords(category: Key)
    requires IsCategory(category) && category != Refine
    ensures forall i :: 0 <= i < |Choices(category)| ==> IsWord(Choices(category)[i])
  {
    match category {
      case Genre => GenreWords();
      case Tone => ToneWords();
      case Style => StyleWords();
      case Voice => VoiceWords();
    }
  }

  lemma GenreWords() ensures forall i :: 0 <= i < |Choices(Genre)| ==> IsWord(Choices(Genre)[i]) {}
  lemma ToneWords() ensures forall i :: 0 <= i < |Choices(Tone)| ==> IsWord(Choices(Tone)[i]) {}
  lemma StyleWords() ensures forall i :: 0 <= i < |Choices(Style)| ==> IsWord(Choices(Style)[i]) {}
  lemma VoiceWords() ensures forall i :: 0 <= i < |Choices(Voice)| ==> IsWord(Choices(Voice)[i]) {}

  /** Two options of one tab differ in their first letter or in their length. */
  lemma ChoicesDistinguishable(category: Key, i: nat, j: nat)
    requires IsCategory(category) && i < |Choices(category)| && j < |Choices(category)| && i != j
    ensures Choices(category)[i][0] != Choices(category)[j][0] || |Choices(category)[i]| != |Choices(category)[j]|
  {
  }

  /**
   * Choosing one of a tab's options leaves exactly that option shown as
   * selected, because the options of every tab have distinct slugs.
   */
  lemma OnlyChoiceSelected(o: Options, category: Key, i: nat, j: nat)
    requires IsCategory(category) && i < |Choices(category)| && j < |Choices(category)|
    ensures IsSelected(HandleOptionChange(o, category, Choices(category)[i]), category, Choices(category)[j]) <==> i == j
  {
    var cs := Choices(category);
    if i != j {
      ChoicesAreWords(category);
      ChoicesDistinguishable(category, i, j);
      WordSlugsDiffer(cs[j], cs[i]);
    }
  }

  /** An empty slider field stands for the slider's default, in the label and in the slider. */
  lemma EmptySliderIsDefault(o: Options, s: Slider)
    requires Field(o, s.id) == ""
    ensures SliderValue(o, s) == Int(s.defaultValue)
    ensures SliderLabel(o, s) == Numbers.ToString(Int(s.defaultValue)) + "%"
  {
    ParseIntToString(s.defaultValue);
  }

  /** Every slider's default is 50, so an empty slider field shows 50%. */
  lemma EmptySliderIsFifty(o: Options, k: nat)
    requires k < |SLIDERS| && Field(o, SLIDERS[k].id) == ""
    ensures SliderValue(o, SLIDERS[k]) == Int(50)
    ensures SliderLabel(o, SLIDERS[k]) == "50%"
  {
    var s := SLIDERS[k];
    assert s.defaultValue == 50;
    EmptySliderIsDefault(o, s);
    FiftyText();
  }

  lemma FiftyText()
    ensures Numbers.ToString(Int(50)) == "50"
  {
    assert NatToString(5) == "5";
    assert NatToString(50) == NatToString(5) + [DigitChar(0)];
  }

  /** A moved slider reads back the value it was moved to. */
  lemma SliderReadsBack(o: Options, k: nat, value: int)
    requires k < |SLIDERS|
    ensures SliderValue(HandleSliderChange(o, SLIDERS[k].id, value), SLIDERS[k]) == Int(value)
  {
    ParseIntToString(value);
  }
}
