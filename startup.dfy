/**
 The start-up check of `main` (yuc.go:152-170): both the bot token and the
 chat ID must be given before the monitor starts. Flag parsing is not
 modelled; the two flag values are the inputs.
 */
module Startup {
  import opened Wrappers

  /** What the monitor is started with. */
  datatype Config = Config(botToken: string, chatID: string, intervalSeconds: nat)

  /** The poll interval `30 * time.Second` (yuc.go:166). */
  const PollIntervalSeconds: nat := 30

  /**
   `None` (the `log.Fatalf` at yuc.go:161-163) exactly when either value is
   empty; otherwise the configuration carries both values unchanged.
   */
  function CheckArgs(botToken: string, chatID: string): (r: Option<Config>)
    ensures r.None? <==> botToken == "" || chatID == ""
    ensures r.Some? ==> r.value.botToken == botToken && r.value.chatID == chatID && r.value.intervalSeconds == 30
  {
    if botToken == "" || chatID == "" then None
    else Some(Config(botToken, chatID, PollIntervalSeconds))
  }
}
