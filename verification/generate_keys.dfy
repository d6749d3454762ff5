/** The key generator (`GenerateKeys`): the provider and plan pickers, the
    count slider, the generate request and its guards, the error shown for a
    refused request, and the texts the copy and Telegram buttons hand on. */
module GenerateKeys {
  import opened Util
  import Catalog
  import UploadKey

  /** The generator's inputs. The two selections start empty (`''`). */
  datatype Form = Form(selectedProvider: Option<int>, selectedPlan: Option<int>, count: int)

  const InitialForm := Form(None, None, 1)

  /** The slider's range: whole numbers from 1 to 20. */
  const SliderMin := 1
  const SliderMax := 20

  predicate SliderValue(v: int) {
    SliderMin <= v <= SliderMax
  }

  /** `handleProviderChange`: a new provider drops the picked plan. */
  function ProviderChange(f: Form, provider: Option<int>): (g: Form)
    ensures g.selectedProvider == provider && g.selectedPlan == None && g.count == f.count
  {
    f.(selectedProvider := provider, selectedPlan := None)
  }

  /** `selectedPlanData`: the picked plan among the picked provider's plans. */
  function SelectedPlanData(providers: seq<Catalog.Provider>, f: Form): (r: Option<Catalog.Plan>)
    ensures !Picked(f.selectedPlan) ==> r.None?
    ensures r.Some? ==> r.value.id == f.selectedPlan.value &&
                        r.value in Catalog.PlansForProvider(providers, f.selectedProvider)
    ensures Picked(f.selectedPlan) ==>
      (r.None? <==> forall p :: p in Catalog.PlansForProvider(providers, f.selectedProvider) ==> p.id != f.selectedPlan.value)
  {
    if !Picked(f.selectedPlan) then None
    else Catalog.FindPlan(Catalog.PlansForProvider(providers, f.selectedProvider), f.selectedPlan.value)
  }

  /** After a provider change no plan data is shown until a plan is picked
      again, so a plan of the previous provider is never priced. */
  lemma ProviderChangeClearsPlanData(providers: seq<Catalog.Provider>, f: Form, provider: Option<int>)
    ensures SelectedPlanData(providers, ProviderChange(f, provider)).None?
  {
  }

  /** The body of the generate request: `{ plan_id, count: count.toString() }`. */
  datatype GenerateRequest = GenerateRequest(planId: int, count: string)

  const SelectPlanMessage := "Please select a plan"
  const CountTooSmallMessage := "Count must be at least 1"
  const GenerateFailedMessage := "Failed to generate keys"

  /** `handleGenerate`'s guards, in order: a plan must be picked, then the
      count must be at least 1; only then is a request built. */
  function CheckGenerate(f: Form): (r: Result<GenerateRequest, string>)
    ensures r.Ok? <==> Picked(f.selectedPlan) && f.count >= 1
    ensures !Picked(f.selectedPlan) ==> r == Err(SelectPlanMessage)
    ensures Picked(f.selectedPlan) && f.count < 1 ==> r == Err(CountTooSmallMessage)
    ensures r.Ok? ==> r.value.planId == f.selectedPlan.value && AllDigits(r.value.count)
  {
    if !Picked(f.selectedPlan) then Err(SelectPlanMessage)
    else if f.count < 1 then Err(CountTooSmallMessage)
    else Ok(GenerateRequest(f.selectedPlan.value, DecimalString(f.count)))
  }

  /** The count travels as text that a server reads back as the same number,
      and a picked plan with any slider position passes both guards. */
  lemma {:induction false} GenerateCountRoundTrip(f: Form)
    ensures CheckGenerate(f).Ok? ==> DigitsValue(CheckGenerate(f).value.count) == f.count
    ensures Picked(f.selectedPlan) && SliderValue(f.count) ==> CheckGenerate(f).Ok?
  {
    if CheckGenerate(f).Ok? {
      DecimalStringRoundTrip(f.count);
    }
  }

  /** The error area: plain text, or the text followed by the celebration
      icon that marks an access-denied refusal. */
  datatype ErrorView = Plain(text: string) | Celebrated(text: string)

  /** The refusal test: `errorMsg.includes('Access denied') ||
      errorMsg.includes('Contact Your Admin')`. */
  function IsAccessDenied(msg: string): (r: bool)
    ensures r <==> (exists i :: 0 <= i <= |msg| && StartsWith(msg[i..], "Access denied")) ||
                   (exists i :: 0 <= i <= |msg| && StartsWith(msg[i..], "Contact Your Admin"))
  {
    Includes(msg, "Access denied") || Includes(msg, "Contact Your Admin")
  }

  /** The error `handleGenerate` shows when the request fails. */
  function FailureView(serverError: Option<string>): (v: ErrorView)
    ensures v.text == ErrorText(serverError, GenerateFailedMessage)
    ensures v.Celebrated? <==> IsAccessDenied(ErrorText(serverError, GenerateFailedMessage))
  {
    var errorMsg := ErrorText(serverError, GenerateFailedMessage);
    if IsAccessDenied(errorMsg) then Celebrated(errorMsg) else Plain(errorMsg)
  }

  lemma {:induction false} IncludesAfter(prefix: string, part: string, rest: string)
    ensures Includes(prefix + part + rest, part)
    decreases |prefix|
  {
    var s := prefix + part + rest;
    if prefix == [] {
      assert s[..|part|] == part;
    } else {
      assert s[1..] == prefix[1..] + part + rest;
      IncludesAfter(prefix[1..], part, rest);
    }
  }

  /** The page's own fallback message is not an access-denied refusal. */
  lemma FallbackIsNotRefusal()
    ensures !IsAccessDenied(GenerateFailedMessage)
  {
    var m := GenerateFailedMessage;
    assert forall i :: 0 <= i < |m| ==> m[i] != 'A' && m[i] != 'C';
    NotIncludedUnlessStart(m, "Access denied", 'A');
    NotIncludedUnlessStart(m, "Contact Your Admin", 'C');
  }

  /** The page's own fallback is plain; a server text naming the admin
      contact anywhere in it is celebrated. */
  lemma {:induction false} FailureViews(before: string, after: string)
    ensures FailureView(None) == Plain(GenerateFailedMessage)
    ensures FailureView(Some(before + "Contact Your Admin" + after)).Celebrated?
  {
    FallbackIsNotRefusal();
    IncludesAfter(before, "Contact Your Admin", after);
  }

  /** A text in which the first letter of `part` never occurs does not
      include `part`. */
  lemma {:induction false} NotIncludedUnlessStart(s: string, part: string, c: char)
    requires part != [] && part[0] == c
    requires forall i :: 0 <= i < |s| ==> s[i] != c
    ensures !Includes(s, part)
    decreases |s|
  {
    if |s| > 0 {
      NotIncludedUnlessStart(s[1..], part, c);
    }
  }

  /** One generated key as the backend returns it. */
  datatype GeneratedKey = GeneratedKey(keyCode: string)

  function KeyCodes(keys: seq<GeneratedKey>): (codes: seq<string>)
    ensures |codes| == |keys|
    ensures forall i :: 0 <= i < |keys| ==> codes[i] == keys[i].keyCode
  {
    seq(|keys|, i requires 0 <= i < |keys| => keys[i].keyCode)
  }

  /** The clipboard and native-share text: one key code per line. Pasted
      into the upload page it gives back the same keys, in order, as long as
      each one is a single token. */
  function CopyText(keys: seq<GeneratedKey>): (text: string)
    ensures UploadKey.AllWellFormed(KeyCodes(keys)) ==> UploadKey.ParseKeys(text) == KeyCodes(keys)
  {
    var text := Join(KeyCodes(keys), "\n");
    if UploadKey.AllWellFormed(KeyCodes(keys)) then
      UploadKey.JoinThenParse(KeyCodes(keys));
      text
    else text
  }

  /** The text part of the Telegram link: the codes joined by an encoded
      line break, after the encoded heading "Generated Keys:" and a break. */
  const TelegramPrefix := "https://t.me/share/url?url=&text="
  const EncodedHeading := "Generated%20Keys%3A%0A"

  function TelegramText(keys: seq<GeneratedKey>): (text: string)
    ensures (forall i, j :: 0 <= i < |keys| && 0 <= j < |keys[i].keyCode| ==> keys[i].keyCode[j] != '%') ==>
      DecodeBreaks(text) == Join(KeyCodes(keys), "\n")
  {
    var codes := KeyCodes(keys);
    var text := Join(codes, "%0A");
    if forall i, j :: 0 <= i < |codes| && 0 <= j < |codes[i]| ==> codes[i][j] != '%' then
      TelegramTextDecodes(codes);
      text
    else text
  }

  function TelegramUrl(keys: seq<GeneratedKey>): (url: string)
    ensures StartsWith(url, TelegramPrefix + EncodedHeading)
  {
    var url := TelegramPrefix + EncodedHeading + TelegramText(keys);
    assert url[..|TelegramPrefix + EncodedHeading|] == TelegramPrefix + EncodedHeading;
    url
  }

  /** Percent-decoding as far as the Telegram text needs it: `%0A` is a
      line break, every other character stands for itself. */
  function DecodeBreaks(s: string): string
    decreases |s|
  {
    if StartsWith(s, "%0A") then "\n" + DecodeBreaks(s[3..])
    else if s == [] then []
    else [s[0]] + DecodeBreaks(s[1..])
  }

  lemma {:induction false} DecodePlainFront(a: string, b: string)
    requires forall i :: 0 <= i < |a| ==> a[i] != '%'
    ensures DecodeBreaks(a + b) == a + DecodeBreaks(b)
    decreases |a|
  {
    if a == [] {
      assert a + b == b;
    } else {
      var s := a + b;
      assert s[0] == a[0] && s[0] != '%';
      assert !StartsWith(s, "%0A");
      assert s[1..] == a[1..] + b;
      DecodePlainFront(a[1..], b);
    }
  }

  /** Once Telegram decodes it, the shared text holds the same lines as the
      clipboard text, for codes that hold no `%` of their own. */
  lemma {:induction false} TelegramTextDecodes(codes: seq<string>)
    requires forall i, j :: 0 <= i < |codes| && 0 <= j < |codes[i]| ==> codes[i][j] != '%'
    ensures DecodeBreaks(Join(codes, "%0A")) == Join(codes, "\n")
    decreases |codes|
  {
    if |codes| == 1 {
      DecodePlainFront(codes[0], []);
      assert codes[0] + [] == codes[0];
    } else if |codes| > 1 {
      var rest := Join(codes[1..], "%0A");
      TelegramTextDecodes(codes[1..]);
      assert Join(codes, "%0A") == codes[0] + ("%0A" + rest);
      DecodePlainFront(codes[0], "%0A" + rest);
      assert ("%0A" + rest)[3..] == rest;
      assert StartsWith("%0A" + rest, "%0A");
    }
  }

  lemma TelegramMatchesCopy(keys: seq<GeneratedKey>)
    requires forall i, j :: 0 <= i < |keys| && 0 <= j < |keys[i].keyCode| ==> keys[i].keyCode[j] != '%'
    ensures DecodeBreaks(TelegramText(keys)) == CopyText(keys)
  {
    TelegramTextDecodes(KeyCodes(keys));
  }

  /** What the page shows around the generate button. */
  datatype Screen = Screen(error: ErrorView, success: string, keys: seq<GeneratedKey>, dialogOpen: bool)

  /** The generate request's answer: `success`, `message` and the keys
      (`data`, possibly missing), or a failure with the server's text. */
  datatype GenerateReply =
    | Generated(success: bool, message: Option<string>, data: Option<seq<GeneratedKey>>)
    | GenerateFailed(serverError: Option<string>)

  /** `handleGenerate`: a guard failure shows its message and sends nothing;
      otherwise both messages are cleared, the request is sent, and the
      answer fills the dialog or the error area. */
  function HandleGenerate(f: Form, screen: Screen, reply: GenerateReply): (r: (Option<GenerateRequest>, Screen))
    ensures r.0.Some? <==> CheckGenerate(f).Ok?
    ensures r.0.Some? ==> r.0.value == CheckGenerate(f).value
    ensures r.0.None? ==> r.1 == screen.(error := Plain(CheckGenerate(f).error))
    ensures r.0.Some? && reply.Generated? && reply.success ==>
      r.1.dialogOpen && r.1.error == Plain("") &&
      r.1.keys == (if reply.data.Some? then reply.data.value else []) &&
      r.1.success == (if reply.message.Some? then reply.message.value else "")
    ensures r.0.Some? && reply.GenerateFailed? ==>
      r.1.error == FailureView(reply.serverError) && r.1.success == "" && r.1.keys == screen.keys
    ensures r.0.Some? && reply.GenerateFailed? ==> r.1.dialogOpen == screen.dialogOpen
    ensures r.0.Some? && reply.Generated? && !reply.success ==> r.1 == screen.(error := Plain(""), success := "")
  {
    match CheckGenerate(f)
    case Err(message) => (None, screen.(error := Plain(message)))
    case Ok(request) =>
      var cleared := screen.(error := Plain(""), success := "");
      var after :=
        match reply
        case Generated(ok, message, data) =>
          if ok then cleared.(success := if message.Some? then message.value else "",
                              keys := if data.Some? then data.value else [],
                              dialogOpen := true)
          else cleared
        case GenerateFailed(serverError) => cleared.(error := FailureView(serverError));
      (Some(request), after)
  }
}
