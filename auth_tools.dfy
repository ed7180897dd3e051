/** The `validate-perfex-auth` tool. */
module AuthTools {
  import opened Js
  import opened Mcp
  import opened AuthService

  /** The names `setupAuthTools` registers. */
  const ToolNames: seq<string> := ["validate-perfex-auth"]

  /** `{ apiKey? }`. */
  datatype ValidateArgs = ValidateArgs(apiKey: Option<string>)

  const ValidText: string := "API key is valid"
  const InvalidText: string := "API key is invalid or there was an error validating it"
  const ErrorText: string := "Error validating API key"

  /** The handler's envelope for the awaited validation: the boolean picks one
      of two texts; a rejection gives the error text. */
  function ValidateReply(outcome: Outcome<bool>): (r: ToolResult)
    ensures IsSingleText(r)
    ensures outcome == Ok(true) ==> TextOf(r) == "API key is valid"
    ensures outcome == Ok(false) ==> TextOf(r) == "API key is invalid or there was an error validating it"
    ensures outcome == Err ==> TextOf(r) == "Error validating API key"
  {
    match outcome
    case Ok(isValid) => TextResult(if isValid then ValidText else InvalidText)
    case Err => TextResult(ErrorText)
  }

  /** `validate-perfex-auth`: ask the validator about the given key, or about
      the configured one when the argument is absent. */
  function ValidatePerfexAuth(s: Service, args: ValidateArgs, probe: HttpGet -> ProbeOutcome): (r: ToolResult)
    ensures IsSingleText(r)
  {
    ValidateReply(Ok(ValidateApiKey(s, args.apiKey, probe).valid))
  }

  /** The three texts are different, so the caller can tell the cases apart. */
  lemma TextsDistinct()
    ensures ValidText != InvalidText && ValidText != ErrorText && InvalidText != ErrorText
  {
    assert ValidText[11] != InvalidText[11];
    assert ValidText[0] != ErrorText[0];
    assert InvalidText[0] != ErrorText[0];
  }

  /** The tool says "valid" exactly when the probe answered 200; it never gives
      the error text, because the validator never rejects. */
  lemma ValidateOutcomes(s: Service, args: ValidateArgs, probe: HttpGet -> ProbeOutcome)
    ensures var v := ValidateApiKey(s, args.apiKey, probe);
      TextOf(ValidatePerfexAuth(s, args, probe)) == if v.valid then ValidText else InvalidText
    ensures TextOf(ValidatePerfexAuth(s, args, probe)) != ErrorText
    ensures TextOf(ValidatePerfexAuth(s, args, probe)) == ValidText
        <==> EffectiveKey(s, args.apiKey) != ""
             && probe(HttpGet(ProbeUrl(s), BearerHeaders(EffectiveKey(s, args.apiKey)))) == Response(200)
  {
    TextsDistinct();
    var key := EffectiveKey(s, args.apiKey);
    if key != "" {
      OnlyStatus200IsValid(s, args.apiKey, probe);
    }
  }

  /** Leaving `apiKey` out checks the configured key. */
  lemma AbsentKeyUsesDefault(s: Service, probe: HttpGet -> ProbeOutcome)
    ensures ValidatePerfexAuth(s, ValidateArgs(None), probe) == ValidatePerfexAuth(s, ValidateArgs(Some(s.apiKey)), probe)
  {
  }
}
