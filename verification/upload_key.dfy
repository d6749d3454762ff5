/** The key-upload page (`UploadKey`): the tokeniser that turns the text area
    into a key list, the chips that delete one key and write the list back
    into the text area, and the upload, clear and provider handlers. */
module UploadKey {
  import opened Util
  import Catalog

  // ---------------------------------------------------------------------
  // The tokeniser: `text.split(/[\n, ]+/).filter(key => key.trim() !== '')`

  /** The characters of the class `[\n, ]`. */
  predicate IsSeparator(c: char) {
    c == '\n' || c == ',' || c == ' '
  }

  predicate SeparatorFree(s: string) {
    forall i :: 0 <= i < |s| ==> !IsSeparator(s[i])
  }

  /** The position of the first separator, or `|s|` when there is none. */
  function FirstSeparator(s: string): (i: nat)
    ensures i <= |s| && SeparatorFree(s[..i])
    ensures i < |s| ==> IsSeparator(s[i])
  {
    if s == [] || IsSeparator(s[0]) then 0
    else
      var j := FirstSeparator(s[1..]);
      assert s[1..][..j] == s[1..j + 1];
      1 + j
  }

  /** `s` without its leading run of separators: what is left after one match
      of the greedy `[\n, ]+`. */
  function DropSeparators(s: string): (r: string)
    ensures |r| <= |s| && r == s[|s| - |r|..]
    ensures s != [] && IsSeparator(s[0]) ==> |r| < |s|
    ensures r == [] || !IsSeparator(r[0])
  {
    if s != [] && IsSeparator(s[0]) then DropSeparators(s[1..]) else s
  }

  /** `s.split(/[\n, ]+/)`: the pieces between maximal runs of separators,
      with an empty piece before a leading run and after a trailing one. */
  function Split(s: string): (pieces: seq<string>)
    ensures |pieces| >= 1
    decreases |s|
  {
    var i := FirstSeparator(s);
    if i == |s| then [s] else [s[..i]] + Split(DropSeparators(s[i..]))
  }

  /** `.filter(key => key.trim() !== '')` */
  function DropBlank(pieces: seq<string>): (keys: seq<string>)
    ensures |keys| <= |pieces|
    ensures forall k :: k in keys ==> k in pieces && !IsBlank(k)
  {
    if pieces == [] then []
    else if IsBlank(pieces[0]) then DropBlank(pieces[1..])
    else [pieces[0]] + DropBlank(pieces[1..])
  }

  /** `parseKeys(text)`: no keys for blank text, otherwise the non-blank
      pieces of the split. */
  function ParseKeys(text: string): (keys: seq<string>)
    ensures IsBlank(text) ==> keys == []
    ensures keys == DropBlank(Split(text))
    ensures AllWellFormed(keys)
  {
    PiecesAreSeparatorFree(text);
    if IsBlank(text) then
      BlankTextHasBlankPieces(text);
      DropBlankOfBlank(Split(text));
      []
    else
      var keys := DropBlank(Split(text));
      assert forall i :: 0 <= i < |keys| ==> keys[i] in keys;
      keys
  }

  /** A key as the tokeniser can produce it: not blank, no separator in it. */
  predicate WellFormedKey(k: string) {
    !IsBlank(k) && SeparatorFree(k)
  }

  predicate AllWellFormed(keys: seq<string>) {
    forall i :: 0 <= i < |keys| ==> WellFormedKey(keys[i])
  }

  lemma {:induction false} DropBlankAppend(xs: seq<string>, ys: seq<string>)
    ensures DropBlank(xs + ys) == DropBlank(xs) + DropBlank(ys)
    decreases |xs|
  {
    if xs == [] {
      assert xs + ys == ys;
    } else {
      assert (xs + ys)[0] == xs[0];
      assert (xs + ys)[1..] == xs[1..] + ys;
      DropBlankAppend(xs[1..], ys);
    }
  }

  /** Every piece of the split is free of separators. */
  lemma {:induction false} PiecesAreSeparatorFree(s: string)
    ensures forall p :: p in Split(s) ==> SeparatorFree(p)
    decreases |s|
  {
    var i := FirstSeparator(s);
    if i < |s| {
      PiecesAreSeparatorFree(DropSeparators(s[i..]));
    }
  }

  /** Every piece of the split of a blank text is blank. */
  lemma {:induction false} BlankTextHasBlankPieces(s: string)
    requires IsBlank(s)
    ensures forall p :: p in Split(s) ==> IsBlank(p)
    decreases |s|
  {
    var i := FirstSeparator(s);
    if i < |s| {
      var rest := DropSeparators(s[i..]);
      assert forall j :: 0 <= j < |rest| ==> rest[j] == s[|s| - |rest| + j];
      BlankTextHasBlankPieces(rest);
    }
  }

  lemma {:induction false} DropBlankOfBlank(pieces: seq<string>)
    requires forall p :: p in pieces ==> IsBlank(p)
    ensures DropBlank(pieces) == []
    decreases |pieces|
  {
    if pieces != [] {
      assert pieces[0] in pieces;
      DropBlankOfBlank(pieces[1..]);
    }
  }

  lemma {:induction false} FirstSeparatorAppend(x: string, y: string)
    ensures FirstSeparator(x) < |x| ==> FirstSeparator(x + y) == FirstSeparator(x)
    ensures FirstSeparator(x) == |x| ==> FirstSeparator(x + y) == |x| + FirstSeparator(y)
    decreases |x|
  {
    if x == [] {
      assert x + y == y;
    } else {
      assert (x + y)[0] == x[0];
      if !IsSeparator(x[0]) {
        assert (x + y)[1..] == x[1..] + y;
        FirstSeparatorAppend(x[1..], y);
      }
    }
  }

  lemma {:induction false} DropSeparatorsAppend(x: string, y: string)
    ensures DropSeparators(x) != [] ==> DropSeparators(x + y) == DropSeparators(x) + y
    ensures DropSeparators(x) == [] ==> DropSeparators(x + y) == DropSeparators(y)
    decreases |x|
  {
    if x == [] {
      assert x + y == y;
    } else {
      assert (x + y)[0] == x[0];
      if IsSeparator(x[0]) {
        assert (x + y)[1..] == x[1..] + y;
        DropSeparatorsAppend(x[1..], y);
      }
    }
  }

  /** A leading run of separators only adds blank pieces. */
  lemma DropBlankSplitDropSeparators(s: string)
    ensures DropBlank(Split(DropSeparators(s))) == DropBlank(Split(s))
  {
    if s != [] && IsSeparator(s[0]) {
      assert FirstSeparator(s) == 0;
      assert s[0..] == s;
      assert Split(s) == [""] + Split(DropSeparators(s));
      assert IsBlank("");
    }
  }

  /** Keys keep their order: the keys of two texts joined by a separator are
      the keys of the first followed by the keys of the second. */
  lemma {:induction false} ParseKeysAppend(a: string, c: char, b: string)
    requires IsSeparator(c)
    ensures ParseKeys(a + [c] + b) == ParseKeys(a) + ParseKeys(b)
  {
    SplitAppend(a, c, b);
  }

  /** One separator followed by `b` splits, up to blank pieces, like `b`. */
  lemma SplitAfterSeparator(c: char, b: string)
    requires IsSeparator(c)
    ensures DropBlank(Split(DropSeparators([c] + b))) == DropBlank(Split(b))
  {
    assert ([c] + b)[1..] == b;
    assert DropSeparators([c] + b) == DropSeparators(b);
    DropBlankSplitDropSeparators(b);
  }

  /** `Split` of a text whose first separator sits at `i`. */
  lemma SplitAt(s: string, i: nat)
    requires i < |s| && FirstSeparator(s) == i
    ensures DropBlank(Split(s)) == DropBlank([s[..i]]) + DropBlank(Split(DropSeparators(s[i..])))
  {
    DropBlankAppend([s[..i]], Split(DropSeparators(s[i..])));
  }

  /** The case of `SplitAppend` where `a` holds no separator. */
  lemma SplitAppendNoSeparator(a: string, c: char, b: string)
    requires IsSeparator(c) && FirstSeparator(a) == |a|
    ensures DropBlank(Split(a + [c] + b)) == DropBlank(Split(a)) + DropBlank(Split(b))
  {
    var s := a + [c] + b;
    FirstSeparatorAppend(a, [c] + b);
    assert s == a + ([c] + b);
    assert FirstSeparator(s) == |a|;
    assert s[..|a|] == a && s[|a|..] == [c] + b;
    SplitAt(s, |a|);
    SplitAfterSeparator(c, b);
    assert Split(a) == [a];
  }

  lemma Regroup(whole: seq<string>, head: seq<string>, tail: seq<string>,
                x: seq<string>, y: seq<string>, left: seq<string>)
    requires whole == head + tail && tail == x + y && left == head + x
    ensures whole == left + y
  {
  }

  /** Where `a + [c] + b` is cut when `a` has a separator at `i`: the same
      first piece as `a`, then the rest of `a`'s tail followed by `[c] + b`. */
  lemma SplitAppendCut(a: string, c: char, b: string, i: nat)
    requires IsSeparator(c) && i == FirstSeparator(a) && i < |a|
    ensures FirstSeparator(a + [c] + b) == i
    ensures (a + [c] + b)[..i] == a[..i]
    ensures DropSeparators(a[i..]) != [] ==>
      DropSeparators((a + [c] + b)[i..]) == DropSeparators(a[i..]) + [c] + b
    ensures DropSeparators(a[i..]) == [] ==>
      DropSeparators((a + [c] + b)[i..]) == DropSeparators([c] + b)
  {
    var tail := [c] + b;
    var s := a + tail;
    assert a + [c] + b == s;
    FirstSeparatorAppend(a, tail);
    assert s[..i] == a[..i];
    var t := a[i..];
    assert s[i..] == t + tail;
    DropSeparatorsAppend(t, tail);
    Associative(DropSeparators(t), [c], b);
  }

  lemma Associative(x: string, y: string, z: string)
    ensures x + (y + z) == x + y + z
  {
  }

  /** `SplitAppend` when the separators after `a`'s first piece run to its end. */
  lemma SplitAppendTrailingRun(a: string, c: char, b: string, i: nat)
    requires IsSeparator(c) && i == FirstSeparator(a) && i < |a| && DropSeparators(a[i..]) == []
    ensures DropBlank(Split(a + [c] + b)) == DropBlank(Split(a)) + DropBlank(Split(b))
  {
    var s := a + [c] + b;
    SplitAppendCut(a, c, b, i);
    SplitAt(s, i);
    SplitAt(a, i);
    SplitAfterSeparator(c, b);
    assert Split(DropSeparators(a[i..])) == [""];
    assert IsBlank("");
  }

  lemma {:induction false} SplitAppend(a: string, c: char, b: string)
    requires IsSeparator(c)
    ensures DropBlank(Split(a + [c] + b)) == DropBlank(Split(a)) + DropBlank(Split(b))
    decreases |a|
  {
    var i := FirstSeparator(a);
    if i == |a| {
      SplitAppendNoSeparator(a, c, b);
    } else if DropSeparators(a[i..]) == [] {
      SplitAppendTrailingRun(a, c, b, i);
    } else {
      var s := a + [c] + b;
      var rest := DropSeparators(a[i..]);
      SplitAppendCut(a, c, b, i);
      SplitAt(s, i);
      SplitAt(a, i);
      assert a[i..][0] == a[i];
      SplitAppend(rest, c, b);
      Regroup(DropBlank(Split(s)), DropBlank([a[..i]]), DropBlank(Split(rest + [c] + b)),
              DropBlank(Split(rest)), DropBlank(Split(b)), DropBlank(Split(a)));
    }
  }

  /** A single well-formed key parses to itself. */
  lemma {:induction false} ParseOneKey(k: string)
    requires WellFormedKey(k)
    ensures ParseKeys(k) == [k]
  {
    assert FirstSeparator(k) == |k|;
    assert Split(k) == [k];
  }

  /** Writing well-formed keys into the text area one per line and parsing
      that text gives back the same keys, in the same order. */
  lemma {:induction false} JoinThenParse(keys: seq<string>)
    requires AllWellFormed(keys)
    ensures ParseKeys(Join(keys, "\n")) == keys
    decreases |keys|
  {
    if |keys| == 0 {
      assert IsBlank("");
    } else if |keys| == 1 {
      ParseOneKey(keys[0]);
    } else {
      JoinThenParse(keys[1..]);
      ParseOneKey(keys[0]);
      assert Join(keys, "\n") == keys[0] + ['\n'] + Join(keys[1..], "\n");
      ParseKeysAppend(keys[0], '\n', Join(keys[1..], "\n"));
      assert keys == [keys[0]] + keys[1..];
    }
  }

  /** The parse of any text is a fixed point of join-then-parse. */
  lemma ParseJoinParse(text: string)
    ensures ParseKeys(Join(ParseKeys(text), "\n")) == ParseKeys(text)
  {
    JoinThenParse(ParseKeys(text));
  }

  // ---------------------------------------------------------------------
  // The page

  /** A chip's delete button: `[...parsedKeys]` copied into a fresh array,
      then `splice(index, 1)`, which shifts the later keys one place left
      and drops the last slot. */
  method Splice(keys: seq<string>, index: nat) returns (newKeys: seq<string>)
    requires index < |keys|
    ensures newKeys == keys[..index] + keys[index + 1..]
  {
    var a := new string[|keys|](i requires 0 <= i < |keys| => keys[i]);
    var j := index;
    while j < a.Length - 1
      invariant index <= j <= a.Length - 1
      invariant forall k :: 0 <= k < index ==> a[k] == keys[k]
      invariant forall k :: index <= k < j ==> a[k] == keys[k + 1]
      invariant forall k :: j <= k < a.Length ==> a[k] == keys[k]
    {
      a[j] := a[j + 1];
      j := j + 1;
    }
    newKeys := a[..a.Length - 1];
    assert forall k :: 0 <= k < |newKeys| ==> newKeys[k] == (keys[..index] + keys[index + 1..])[k];
  }

  /** Deleting a key keeps every other key well formed. */
  lemma RemovalKeepsWellFormed(keys: seq<string>, index: nat)
    requires AllWellFormed(keys) && index < |keys|
    ensures AllWellFormed(keys[..index] + keys[index + 1..])
  {
    var rest := keys[..index] + keys[index + 1..];
    forall k | 0 <= k < |rest|
      ensures WellFormedKey(rest[k])
    {
      if k < index {
        assert rest[k] == keys[k];
      } else {
        assert rest[k] == keys[k + 1];
      }
    }
  }

  datatype KeyData = KeyData(keyCode: string)

  /** The body of the upload request. */
  datatype UploadRequest = UploadRequest(planId: int, keysData: seq<KeyData>)

  /** `parsedKeys.map(key => ({ key_code: key }))` */
  function KeysData(keys: seq<string>): (data: seq<KeyData>)
    ensures |data| == |keys|
    ensures forall i :: 0 <= i < |keys| ==> data[i] == KeyData(keys[i])
  {
    if keys == [] then [] else [KeyData(keys[0])] + KeysData(keys[1..])
  }

  /** The key codes a request carries. */
  function KeyCodes(data: seq<KeyData>): (codes: seq<string>)
    ensures |codes| == |data|
  {
    if data == [] then [] else [data[0].keyCode] + KeyCodes(data[1..])
  }

  /** The request carries the parsed keys one for one and in order. */
  lemma {:induction false} KeyCodesOfKeysData(keys: seq<string>)
    ensures KeyCodes(KeysData(keys)) == keys
    decreases |keys|
  {
    if keys != [] {
      KeyCodesOfKeysData(keys[1..]);
      assert KeysData(keys)[1..] == KeysData(keys[1..]);
    }
  }

  const SelectPlanMessage := "Please select a plan"
  const NoValidKeysMessage := "No valid keys to upload"
  const UploadFailedMessage := "Failed to upload keys"
  const ClipboardFailedMessage := "Failed to read from clipboard"

  /** `handleUpload`'s guards, in order, and the request it sends when both
      pass: a plan must be picked first, then at least one key parsed. */
  function CheckUpload(selectedPlan: Option<int>, parsedKeys: seq<string>): (r: Result<UploadRequest, string>)
    ensures r.Ok? <==> Picked(selectedPlan) && parsedKeys != []
    ensures !Picked(selectedPlan) ==> r == Err(SelectPlanMessage)
    ensures Picked(selectedPlan) && parsedKeys == [] ==> r == Err(NoValidKeysMessage)
    ensures r.Ok? ==> r.value.planId == selectedPlan.value && KeyCodes(r.value.keysData) == parsedKeys
  {
    if !Picked(selectedPlan) then Err(SelectPlanMessage)
    else if parsedKeys == [] then Err(NoValidKeysMessage)
    else
      KeyCodesOfKeysData(parsedKeys);
      Ok(UploadRequest(selectedPlan.value, KeysData(parsedKeys)))
  }

  function UploadedMessage(count: nat): string {
    "Successfully uploaded " + DecimalString(count) + " keys"
  }

  class UploadKeyPage {
    var selectedProvider: Option<int>
    var selectedPlan: Option<int>
    var keyText: string
    var parsedKeys: seq<string>
    var error: string
    var success: string

    /** The chips always show the keys of the text area. */
    ghost function InSync(): (r: bool)
      reads this
      ensures r ==> AllWellFormed(parsedKeys)
    {
      parsedKeys == ParseKeys(keyText)
    }

    constructor ()
      ensures selectedProvider == None && selectedPlan == None
      ensures keyText == "" && parsedKeys == [] && error == "" && success == ""
      ensures InSync()
    {
      selectedProvider, selectedPlan := None, None;
      keyText, parsedKeys := "", [];
      error, success := "", "";
      assert IsBlank("");
    }

    /** `handleTextChange`: store the text and its keys. */
    method HandleTextChange(text: string)
      modifies this
      ensures keyText == text && parsedKeys == ParseKeys(text) && InSync()
      ensures selectedProvider == old(selectedProvider) && selectedPlan == old(selectedPlan)
      ensures error == old(error) && success == old(success)
    {
      keyText := text;
      parsedKeys := ParseKeys(text);
    }

    /** `handlePaste`: the clipboard's text as if typed, or an error when it
        cannot be read (`None`). */
    method HandlePaste(clipboard: Option<string>)
      modifies this
      ensures clipboard.Some? ==> keyText == clipboard.value && parsedKeys == ParseKeys(clipboard.value)
                                  && error == old(error)
      ensures clipboard.None? ==> keyText == old(keyText) && parsedKeys == old(parsedKeys)
                                  && error == ClipboardFailedMessage
      ensures old(InSync()) ==> InSync()
      ensures selectedProvider == old(selectedProvider) && selectedPlan == old(selectedPlan)
      ensures success == old(success)
    {
      if clipboard.Some? {
        HandleTextChange(clipboard.value);
      } else {
        error := ClipboardFailedMessage;
      }
    }

    /** A chip's delete: drop that key and write the rest back into the text
        area one per line, which parses back to the same keys. */
    method DeleteChip(index: nat)
      requires index < |parsedKeys|
      modifies this
      ensures parsedKeys == old(parsedKeys[..index] + parsedKeys[index + 1..])
      ensures keyText == Join(parsedKeys, "\n")
      ensures old(InSync()) ==> InSync()
      ensures selectedProvider == old(selectedProvider) && selectedPlan == old(selectedPlan)
      ensures error == old(error) && success == old(success)
    {
      if InSync() {
        RemovalKeepsWellFormed(parsedKeys, index);
      }
      var newKeys := Splice(parsedKeys, index);
      if InSync() {
        JoinThenParse(newKeys);
      }
      parsedKeys := newKeys;
      keyText := Join(newKeys, "\n");
    }

    /** `handleUpload`: refuse with the first failing guard; otherwise clear
        both messages, send the request and apply the reply, emptying the
        text, the keys and both selections on success. */
    method HandleUpload(reply: Reply) returns (request: Option<UploadRequest>)
      modifies this
      ensures var check := CheckUpload(old(selectedPlan), old(parsedKeys));
        request == if check.Ok? then Some(check.value) else None
      ensures CheckUpload(old(selectedPlan), old(parsedKeys)).Err? ==>
        error == CheckUpload(old(selectedPlan), old(parsedKeys)).error && success == old(success) &&
        keyText == old(keyText) && parsedKeys == old(parsedKeys) &&
        selectedPlan == old(selectedPlan) && selectedProvider == old(selectedProvider)
      ensures request.Some? && reply == Answered(true) ==>
        success == UploadedMessage(|old(parsedKeys)|) && error == "" &&
        keyText == "" && parsedKeys == [] && selectedPlan == None && selectedProvider == None
      ensures request.Some? && reply != Answered(true) ==>
        success == "" && keyText == old(keyText) && parsedKeys == old(parsedKeys) &&
        selectedPlan == old(selectedPlan) && selectedProvider == old(selectedProvider)
      ensures request.Some? && reply == Answered(false) ==> error == ""
      ensures request.Some? && reply.Failed? ==> error == ErrorText(reply.serverError, UploadFailedMessage)
      ensures old(InSync()) ==> InSync()
    {
      var check := CheckUpload(selectedPlan, parsedKeys);
      if check.Err? {
        error := check.error;
        request := None;
        return;
      }
      error := "";
      success := "";
      request := Some(check.value);
      match reply
      case Answered(ok) =>
        if ok {
          success := UploadedMessage(|parsedKeys|);
          keyText := "";
          parsedKeys := [];
          selectedPlan := None;
          selectedProvider := None;
          assert IsBlank("");
        }
      case Failed(serverError) =>
        error := ErrorText(serverError, UploadFailedMessage);
    }

    /** `handleClear`: empty the text, the keys and both messages; the plan and
        provider stay picked. */
    method HandleClear()
      modifies this
      ensures keyText == "" && parsedKeys == [] && error == "" && success == "" && InSync()
      ensures selectedProvider == old(selectedProvider) && selectedPlan == old(selectedPlan)
    {
      keyText := "";
      parsedKeys := [];
      error := "";
      success := "";
      assert IsBlank("");
    }

    /** The plans the plan box offers for the picked provider. */
    function PlansOffered(providers: seq<Catalog.Provider>): seq<Catalog.Plan>
      reads this
    {
      Catalog.PlansForProvider(providers, selectedProvider)
    }

    /** `handleProviderChange`: pick the provider and drop the picked plan. */
    method HandleProviderChange(value: Option<int>)
      modifies this
      ensures selectedProvider == value && selectedPlan == None
      ensures keyText == old(keyText) && parsedKeys == old(parsedKeys)
      ensures error == old(error) && success == old(success)
    {
      selectedProvider := value;
      selectedPlan := None;
    }
  }
}
