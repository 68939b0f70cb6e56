/** The one RabbitMQ queue the services share, and the message the user
    service puts on it. A message body is carried in its decoded form (the
    `json_encode` on one side and the `json_decode` on the other are library
    calls and are taken to be inverse). */
module Messaging {
  import opened Php
  import opened Json

  const UserCreatedQueue := "user_created_queue"

  /** The arguments of `queue_declare($name, $passive, $durable, $exclusive, $autoDelete)`. */
  datatype QueueDecl = QueueDecl(name: string, passive: bool, durable: bool, exclusive: bool, autoDelete: bool)

  /** An AMQP message as `basic_publish($message, $exchange, $routingKey)` sends it. */
  datatype Message = Message(exchange: string, routingKey: string, body: Doc, persistent: bool)

  /** The user-created event: `{user_id, email, name}` with the id as
      `lastInsertId()` returns it (a decimal string), published persistently
      through the default exchange straight to the queue. */
  function UserCreated(id: nat, email: Value, name: Value): (m: Message)
    ensures m.exchange == "" && m.routingKey == UserCreatedQueue && m.persistent
    ensures m.body.Decoded? && m.body.fields.Keys == {"user_id", "email", "name"}
    ensures Get(m.body, "email") == email && Get(m.body, "name") == name
    ensures Get(m.body, "user_id").Str? && AllDigits(Get(m.body, "user_id").s)
    ensures ParseDigits(Get(m.body, "user_id").s) == id
  {
    ParseNatToString(id);
    Message("", UserCreatedQueue,
      Decoded(map["user_id" := Str(NatToString(id)), "email" := email, "name" := name]), true)
  }
}
