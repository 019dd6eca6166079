/**
 * `CreateForPlugin` hands `Create` the plugin tag as the allowed path and the caller's
 * allowed path as the type. A key issued that way escapes `DeleteForPlugin`, whose
 * filter looks for the tag in `type`. The two scenarios below run the same calls against
 * the code as written and against the corrected argument order.
 */
module Findings {

  import opened Errors
  import opened Models
  import opened Dal
  import opened ApiKeyHelper

  const WebhookPath := "/plugins/webhook/.*"

  /** As written: the webhook key is still in the table after the webhook's plugin-scoped revocation. */
  method SwappedPluginKeySurvivesRevocation(hmac: Hmac, compiles: string -> bool)
    returns (created: Result<ApiKey, Kind>, revoked: Outcome<DalError>, remaining: seq<ApiKey>)
    requires compiles(PluginType("webhook"))
    ensures created.Ok? && revoked == Pass
    ensures |remaining| == 1
    ensures remaining[0].allowedPath == PluginType("webhook") && remaining[0].keyType == WebhookPath
  {
    var tx := new Table();
    var helper := new ApiKeyHelper(tx, "secret", hmac, compiles);
    created := helper.CreateForPlugin(tx, None, "webhook-1", "webhook", WebhookPath, "1",
                                      Letters(seq(ApiKeyLen, _ => 'a')), false, 0, false);
    revoked := helper.DeleteForPlugin(tx, "webhook", "1", false, false);
    remaining := tx.rows;
  }

  /** Corrected: the same calls leave the table empty. */
  method CorrectedPluginKeyIsRevoked(hmac: Hmac, compiles: string -> bool)
    returns (created: Result<ApiKey, Kind>, revoked: Outcome<DalError>, remaining: seq<ApiKey>)
    requires compiles(WebhookPath)
    ensures created.Ok? && revoked == Pass
    ensures remaining == []
  {
    var tx := new Table();
    var helper := new ApiKeyHelper(tx, "secret", hmac, compiles);
    created := helper.CreateForPluginCorrected(tx, None, "webhook-1", "webhook", WebhookPath, "1",
                                               Letters(seq(ApiKeyLen, _ => 'a')), false, 0, false);
    assert IsFirstPluginMatch(tx.rows, 0, "webhook", "1");
    revoked := helper.DeleteForPlugin(tx, "webhook", "1", false, false);
    remaining := tx.rows;
  }
}
