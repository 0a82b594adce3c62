/** The configuration constants at the top of squad_bot.py. */
module Settings {
  /** The squad lobby is recognised by its name. */
  const CreateSquadChannelName: string := "Criar Squad"
  /** The unlimited-channel lobby is recognised by its id. */
  const CreateUnlimitedChannelId: int := 1456683516283850857
  /** Category receiving custom (unlimited) channels. */
  const UnlimitedCategoryId: int := 1456683672219680962
  /** Category receiving squad channels. */
  const SquadCategoryId: int := 1456072402915164294
  /** Common prefix of every squad channel name. */
  const ChannelPrefix: string := "WT Squad"
  /** Whether a departure triggers the empty-channel check. */
  const DeleteEmptyChannels: bool := true
}
