/** Identities shared by the components that publish on the event bus. */
module Events {
  /** A connected websocket client, the addressee of a client message. */
  type Client = nat
}
