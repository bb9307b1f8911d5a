/** The browser state the client touches: local storage, the current location and `alert` dialogs. */
module Browser {
  import opened Wrappers
  import opened Domain

  /**
   * The two local-storage keys the client uses: `token` (the bearer credential)
   * and `user` (the serialised identity; serialising and parsing are taken to be
   * inverse, so the stored value is the identity itself).
   */
  datatype Storage = Storage(token: Option<string>, user: Option<Identity>)

  const EmptyStorage := Storage(None, None)

  class Window {
    var storage: Storage
    var location: string
    var alerts: seq<string>

    constructor(storage: Storage, location: string)
      ensures this.storage == storage && this.location == location && alerts == []
    {
      this.storage := storage;
      this.location := location;
      alerts := [];
    }
  }
}
