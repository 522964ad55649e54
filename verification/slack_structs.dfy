/** The chat platform's records (slack/structs.go), already decoded from JSON. */
module SlackStructs {

  /** The event type of a chat message. */
  const TypeMessage: string := "message"

  datatype Message = Message(id: nat, user: string, msgType: string, conversation: string, text: string)

  /** A member profile; `skype` holds the birthday token. */
  datatype UserProfile = UserProfile(
    id: string,
    title: string,
    phone: string,
    skype: string,
    realName: string,
    realNameNorm: string,
    displayName: string,
    displayNameNorm: string,
    email: string,
    firstName: string,
    lastName: string,
    imageOriginal: string)

  datatype TopicInfo = TopicInfo(value: string, creator: string, lastSet: int)

  datatype Conversation = Conversation(
    id: string,
    name: string,
    created: int,
    isArchived: bool,
    isGeneral: bool,
    creator: string,
    nameNorm: string,
    isReadOnly: bool,
    isShared: bool,
    isOrgShared: bool,
    isMember: bool,
    isPrivate: bool,
    topic: TopicInfo,
    purpose: TopicInfo)

  /** A direct-message channel. */
  datatype IM = IM(id: string, created: int, isIM: bool, isOrgShared: bool, user: string, isUserDeleted: bool)
}
