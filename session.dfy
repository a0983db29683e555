/** The browser's per-tab session storage as the page scripts see it: a map
    from keys to strings, plus the two ways a call into it can throw. */
module Session {

  class SessionStorage {
    var items: map<string, string>
    /** false when the browser refuses access to session storage: every call throws */
    const accessible: bool
    /** false when writes are refused (quota exhausted): setItem throws, the other calls work */
    const writable: bool

    constructor (items: map<string, string>, accessible: bool, writable: bool)
      ensures this.items == items && this.accessible == accessible && this.writable == writable
    {
      this.items := items;
      this.accessible := accessible;
      this.writable := writable;
    }
  }
}
