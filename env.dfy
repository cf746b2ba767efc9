/** Configuration lookup shared by the relay and the webhook consumer. */
module Env {

  /** The process environment: `os.Getenv` answers "" for an unset variable,
      which the map models by the key being absent. */
  type Environment = map<string, string>

  /** getEnv: the variable's value when it is set and non-empty, otherwise the
      fallback. A variable set to the empty string yields the fallback. */
  function GetEnv(env: Environment, key: string, fallback: string): (r: string)
    ensures key in env && env[key] != "" ==> r == env[key]
    ensures !(key in env && env[key] != "") ==> r == fallback
    ensures r != "" <==> (key in env && env[key] != "") || fallback != ""
  {
    if key in env && env[key] != "" then env[key] else fallback
  }

  const DefaultWebhookUrl := "http://webhook-consumer:8082/orders/finish"

  /** The webhook target the relay posts to (main in the relay binary). */
  function WebhookUrl(env: Environment): (url: string)
    ensures url != ""
    ensures "WEBHOOK_URL" in env && env["WEBHOOK_URL"] != "" ==> url == env["WEBHOOK_URL"]
    ensures "WEBHOOK_URL" !in env || env["WEBHOOK_URL"] == "" ==> url == DefaultWebhookUrl
  {
    GetEnv(env, "WEBHOOK_URL", DefaultWebhookUrl)
  }
}
