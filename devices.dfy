/** The device connection as the registry and the shell screen see it. `DeviceConnection`
    itself is not part of this model: it is kept as an abstract record with the endpoint
    it was created for, the flags the service reads and writes, and the commands queued on it. */
module Devices {
  import opened JavaLang

  class DeviceConnection {
    /** The endpoint the connection was created for; it never changes. */
    const host: string
    const port: Int32
    /** The "actively viewed" hint set by the shell screen when it resumes or pauses. */
    var foreground: bool
    /** Whether the connection has reached its terminal state. */
    var closed: bool
    /** Whether `startConnect` has been called. */
    var started: bool
    /** Commands handed to `queueCommand`, oldest first. */
    var queued: seq<string>

    constructor (host: string, port: Int32)
      ensures this.host == host && this.port == port
      ensures foreground && !closed && !started && queued == []
    {
      this.host := host;
      this.port := port;
      foreground := true;
      closed := false;
      started := false;
      queued := [];
    }

    /** Begins the asynchronous handshake; the handshake itself is not modelled. */
    method StartConnect()
      modifies this`started
      ensures started
    {
      started := true;
    }

    /** Hands a command line to the connection for sending. */
    method QueueCommand(command: string)
      modifies this`queued
      ensures queued == old(queued) + [command]
    {
      queued := queued + [command];
    }

    method SetForeground(foreground: bool)
      modifies this`foreground
      ensures this.foreground == foreground
    {
      this.foreground := foreground;
    }
  }
}
