/**
 * Application settings: the per-type raffle parameters with their defaults,
 * the commission, the raffle wallet, the bot token and the CORS origin list.
 */
module Config {
  import opened Models
  import opened Strings

  /** The settings the raffle core reads; fee fields are in nanotons. */
  datatype Settings = Settings(
    expressMinParticipants: int,
    expressEntryFee: Nanotons,
    expressTimerMinutes: int,
    standardMinParticipants: int,
    standardEntryFee: Nanotons,
    standardTimerMinutes: int,
    premiumMinParticipants: int,
    premiumEntryFee: Nanotons,
    premiumTimerMinutes: int,
    commissionPercent: int,
    corsOrigins: string,
    raffleWalletAddress: Wallet,
    telegramBotToken: string)

  /**
   * The settings when the environment sets only the required fields (the
   * raffle wallet and the bot token) and every other field keeps its default.
   */
  function DefaultSettings(raffleWallet: Wallet, botToken: string): Settings
  {
    Settings(
      expressMinParticipants := 5,
      expressEntryFee := 1 * NanotonsPerTon,
      expressTimerMinutes := 1,
      standardMinParticipants := 10,
      standardEntryFee := 2 * NanotonsPerTon,
      standardTimerMinutes := 2,
      premiumMinParticipants := 30,
      premiumEntryFee := 5 * NanotonsPerTon,
      premiumTimerMinutes := 5,
      commissionPercent := 10,
      corsOrigins := "*",
      raffleWalletAddress := raffleWallet,
      telegramBotToken := botToken)
  }

  /**
   * cors_origins_list: "*" alone allows every origin; otherwise one origin
   * per comma-separated segment, stripped of surrounding whitespace. Empty
   * segments stay as empty strings.
   */
  function CorsOriginsList(origins: string): (r: seq<string>)
    ensures origins == "*" ==> r == ["*"]
    ensures origins != "*" ==> |r| == Count(origins, ',') + 1
    ensures origins != "*" ==> forall i :: 0 <= i < |r| ==> ',' !in r[i]
    ensures forall i :: 0 <= i < |r| ==> r[i] == [] || (!IsSpace(r[i][0]) && !IsSpace(r[i][|r[i]| - 1]))
  {
    if origins == "*" then ["*"]
    else
      var segments := Split(origins, ',');
      assert forall i :: 0 <= i < |segments| ==> ',' !in Strip(segments[i]) by {
        forall i | 0 <= i < |segments| ensures ',' !in Strip(segments[i]) {
          var a, b :| 0 <= a <= b <= |segments[i]| && Strip(segments[i]) == segments[i][a..b];
        }
      }
      seq(|segments|, i requires 0 <= i < |segments| => Strip(segments[i]))
  }

  /**
   * The entries of cors_origins_list are, in order, the stripped pieces of a
   * cutting of the setting at its commas: joining the pieces with commas gives
   * the setting back.
   */
  lemma CorsOriginsListSegments(origins: string)
    requires origins != "*"
    ensures exists pieces: seq<string> ::
      && Join(pieces, ',') == origins
      && |pieces| == |CorsOriginsList(origins)|
      && (forall i :: 0 <= i < |pieces| ==> ',' !in pieces[i] && CorsOriginsList(origins)[i] == Strip(pieces[i]))
  {
    var pieces := Split(origins, ',');
    JoinSplit(origins, ',');
    assert Join(pieces, ',') == origins;
  }
}
