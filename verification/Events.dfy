// Outbox payloads: what an event says about its transaction, how it is stored and sent.
module Events {
  import opened Wrappers
  import opened Uuid
  import opened Model

  const TRANSACTION_COMPLETED := "transaction.completed"
  const TRANSACTION_REVERSED := "transaction.reversed"

  datatype Payload = Payload(
    eventId: Id, eventType: string, transactionId: Id, source: Option<Id>, destination: Option<Id>,
    amount: int, related: Option<Id>)

  function PayloadOf(eventId: Id, eventType: string, row: Transaction): Payload
  {
    Payload(eventId, eventType, row.id, row.source, row.destination, row.amount, row.related)
  }

  function EventTypeOf(kind: Kind): string
  {
    if kind == Reversal then TRANSACTION_REVERSED else TRANSACTION_COMPLETED
  }

  // A nil id is left out.
  function OptionalField(field: Field, id: Option<Id>): map<Field, Json>
  {
    match id
    case Some(value) => map[field := JsonText(Uuid.Text(value))]
    case None => map[]
  }

  // The fields of a payload, in the outbox row and on the stream alike.
  function Fields(payload: Payload): map<Field, Json>
  {
    map[EventIdField := JsonText(Uuid.Text(payload.eventId)),
        EventTypeField := JsonText(payload.eventType),
        TransactionIdField := JsonText(Uuid.Text(payload.transactionId)),
        AmountField := JsonNumber(payload.amount)]
    + OptionalField(SourceField, payload.source)
    + OptionalField(DestinationField, payload.destination)
    + OptionalField(RelatedField, payload.related)
  }

  function NewOutboxEvent(eventId: Id, eventType: string, row: Transaction): OutboxRow
  {
    OutboxRow(row.id, eventType, Object(Fields(PayloadOf(eventId, eventType, row))), OutboxPending, 0, None)
  }

  // ---------- Decoding ----------

  // A missing field keeps its zero value; a field of the wrong type is an error.
  function ReadId(fields: map<Field, Json>, field: Field): Result<Option<Id>, ()>
  {
    if field !in fields then Ok(None)
    else match fields[field]
      case JsonText(text) => (match ParseId(text) case Some(id) => Ok(Some(id)) case None => Err(()))
      case JsonNumber(_) => Err(())
  }

  function ReadText(fields: map<Field, Json>, field: Field): Result<string, ()>
  {
    if field !in fields then Ok("")
    else match fields[field]
      case JsonText(text) => Ok(text)
      case JsonNumber(_) => Err(())
  }

  function ReadNumber(fields: map<Field, Json>, field: Field): Result<int, ()>
  {
    if field !in fields then Ok(0)
    else match fields[field]
      case JsonText(_) => Err(())
      case JsonNumber(n) => if MIN_INT64 <= n <= MAX_INT64 then Ok(n) else Err(())
  }

  function OrNil(id: Option<Id>): Id
  {
    match id case Some(value) => value case None => 0
  }

  function ParsePayload(raw: Raw): Result<Payload, ()>
  {
    match raw
    case Malformed => Err(())
    case Object(fields) =>
      match (ReadId(fields, EventIdField), ReadText(fields, EventTypeField), ReadId(fields, TransactionIdField),
             ReadId(fields, SourceField), ReadId(fields, DestinationField), ReadNumber(fields, AmountField),
             ReadId(fields, RelatedField))
      case (Ok(event), Ok(eventType), Ok(transaction), Ok(source), Ok(destination), Ok(amount), Ok(related)) =>
        Ok(Payload(OrNil(event), eventType, OrNil(transaction), source, destination, amount, related))
      case _ => Err(())
  }

  lemma ReadOptionalField(field: Field, id: Option<Id>, fields: map<Field, Json>)
    requires CarriesOptional(fields, field, id)
    ensures ReadId(fields, field) == Ok(id)
  {
    hide Uuid.Text, ParseId;
    if id.Some? {
      ParseText(id.value);
    }
  }

  predicate Carries(fields: map<Field, Json>, payload: Payload)
  {
    && EventIdField in fields && fields[EventIdField] == JsonText(Uuid.Text(payload.eventId))
    && EventTypeField in fields && fields[EventTypeField] == JsonText(payload.eventType)
    && TransactionIdField in fields && fields[TransactionIdField] == JsonText(Uuid.Text(payload.transactionId))
    && AmountField in fields && fields[AmountField] == JsonNumber(payload.amount)
    && CarriesOptional(fields, SourceField, payload.source)
    && CarriesOptional(fields, DestinationField, payload.destination)
    && CarriesOptional(fields, RelatedField, payload.related)
  }

  predicate CarriesOptional(fields: map<Field, Json>, field: Field, id: Option<Id>)
  {
    (field in fields <==> id.Some?) && (id.Some? ==> fields[field] == JsonText(Uuid.Text(id.value)))
  }

  lemma FieldsCarry(payload: Payload)
    ensures Carries(Fields(payload), payload)
  {
    hide Uuid.Text;
  }

  lemma ParseCarried(fields: map<Field, Json>, payload: Payload)
    requires Carries(fields, payload) && MIN_INT64 <= payload.amount <= MAX_INT64
    ensures ParsePayload(Object(fields)) == Ok(payload)
  {
    hide Uuid.Text, ParseId;
    ReadOptionalField(EventIdField, Some(payload.eventId), fields);
    ReadOptionalField(TransactionIdField, Some(payload.transactionId), fields);
    ReadOptionalField(SourceField, payload.source, fields);
    ReadOptionalField(DestinationField, payload.destination, fields);
    ReadOptionalField(RelatedField, payload.related, fields);
  }

  // Storing a payload and parsing it back loses nothing.
  lemma ParseFields(payload: Payload)
    requires MIN_INT64 <= payload.amount <= MAX_INT64
    ensures ParsePayload(Object(Fields(payload))) == Ok(payload)
  {
    hide Uuid.Text, ParsePayload, Fields;
    FieldsCarry(payload);
    ParseCarried(Fields(payload), payload);
  }

  // ---------- What does not parse ----------

  predicate IdReads(fields: map<Field, Json>, field: Field)
  {
    field in fields ==> fields[field].JsonText? && ParseId(fields[field].text).Some?
  }

  // A payload fails to parse exactly when it is no JSON object, or a field that is there has the wrong
  // type, is no id, or is no int64. A field that is not there is no failure.
  lemma ParsesIff(raw: Raw)
    ensures ParsePayload(raw).Ok?
            <==> raw.Object?
                 && IdReads(raw.fields, EventIdField) && IdReads(raw.fields, TransactionIdField)
                 && IdReads(raw.fields, SourceField) && IdReads(raw.fields, DestinationField)
                 && IdReads(raw.fields, RelatedField)
                 && (EventTypeField in raw.fields ==> raw.fields[EventTypeField].JsonText?)
                 && (AmountField in raw.fields ==>
                       raw.fields[AmountField].JsonNumber?
                       && -0x8000_0000_0000_0000 <= raw.fields[AmountField].number <= 0x7FFF_FFFF_FFFF_FFFF)
  {
    hide ParseId;
  }

  // The values sent to the stream, filled in field by field.
  method ToStreamValues(payload: Payload) returns (values: map<Field, Json>)
    ensures values == Fields(payload)
  {
    hide Uuid.Text;
    values := map[
      EventIdField := JsonText(Uuid.Text(payload.eventId)),
      EventTypeField := JsonText(payload.eventType),
      TransactionIdField := JsonText(Uuid.Text(payload.transactionId)),
      AmountField := JsonNumber(payload.amount)];
    if payload.source.Some? {
      values := values[SourceField := JsonText(Uuid.Text(payload.source.value))];
    }
    if payload.destination.Some? {
      values := values[DestinationField := JsonText(Uuid.Text(payload.destination.value))];
    }
    if payload.related.Some? {
      values := values[RelatedField := JsonText(Uuid.Text(payload.related.value))];
    }
  }
}
