/** The bot's own records (structs.go) and the shape of an outgoing message text. */
module Structs {

  /** The validated settings (`config`). `location` is the time zone name that
      was loaded; `botUID` and `managerDM` are filled in after connecting. */
  datatype Config = Config(
    workdayStart: int,
    workdayEnd: int,
    location: string,
    botUID: string,
    legacyToken: string,
    mainChannelID: string,
    managerID: string,
    managerDM: string,
    highThreshold: int,
    lowThreshold: int,
    blacklist: seq<string>)

  /** The message templates (`messages`). */
  datatype Messages = Messages(
    shutdownAnnounce: string,
    shutdownError: string,
    profileError: string,
    bdParseError: string,
    personalIncoming: string,
    personalToday: string,
    managerAnnounce: string,
    channelAnnounce: string)

  /** One member's birthday for this pass (`bdInfo`); `birthday` is the
      year-stamped token `DDMM` + year. */
  datatype BdInfo = BdInfo(realName: string, surname: string, birthday: string, daysLeft: int)

  /** An argument of a `fmt.Sprintf` call. */
  datatype Arg = Str(s: string) | Int(i: int)

  /** The text of an outgoing message: a fixed string, or a template with the
      arguments `fmt.Sprintf` is given (the rendering itself is not modelled). */
  datatype MessageText = Literal(s: string) | Formatted(template: string, args: seq<Arg>)
}
