/** The action names and the texts the engine writes into the history log and
    the notifications. */
module Messages {

  const CreateOfferAction := "crear_oferta"
  const BuyerCounterAction := "contraoferta_comprador"
  const ProducerCounterAction := "contraoferta_vendedor"
  const InterestAction := "interes"
  const AcceptOfferAction := "aceptar_oferta"
  const RejectOfferAction := "rechazar_oferta"
  const AcceptCounterAction := "aceptar_contraoferta"
  const RejectCounterAction := "rechazar_contraoferta"
  const DeleteOfferAction := "eliminar_oferta"
  const DeleteCounterAction := "eliminar_contraoferta"

  const CreateOfferDetail := "El productor creó una oferta inicial."
  const DeleteOfferDetail := "El productor marcó la oferta como eliminada."

  /** `id` occurs in `text` starting at position `k`. */
  predicate OccursAt(text: string, id: string, k: int)
  {
    0 <= k <= |text| - |id| && text[k..k + |id|] == id
  }

  /** `text` contains `id` as a contiguous piece. */
  ghost predicate Mentions(text: string, id: string)
  {
    exists k :: OccursAt(text, id, k)
  }

  /** A text of the form `prefix + id + suffix` mentions `id`. */
  lemma MentionsMiddle(prefix: string, id: string, suffix: string)
    ensures Mentions(prefix + id + suffix, id)
  {
    var text := prefix + id + suffix;
    assert OccursAt(text, id, |prefix|);
  }

  /** Sent to every buyer when a producer publishes an offer. */
  function NewOfferMessage(producer: string, id: string): (m: string)
    ensures Mentions(m, id)
  {
    MentionsMiddle("El productor " + producer + " publicó una nueva oferta #", id, ".");
    "El productor " + producer + " publicó una nueva oferta #" + id + "."
  }

  /** Sent to every buyer when a producer deletes an offer. */
  function DeletedOfferMessage(id: string): (m: string)
    ensures Mentions(m, id)
  {
    MentionsMiddle("La oferta #", id, " fue eliminada por el productor.");
    "La oferta #" + id + " fue eliminada por el productor."
  }

  function BuyerCounterDetail(buyer: string): string
  {
    "El comprador " + buyer + " envió una contraoferta."
  }

  function BuyerCounterMessage(buyer: string, offerId: string): string
  {
    "El comprador " + buyer + " hizo una contraoferta a tu oferta #" + offerId + "."
  }

  function ProducerCounterDetail(buyer: string): string
  {
    "El productor envió una contraoferta al comprador " + buyer + "."
  }

  function ProducerCounterMessage(producer: string, offerId: string): string
  {
    "El productor " + producer + " envió una contraoferta sobre la oferta #" + offerId + "."
  }

  function InterestDetail(buyer: string): string
  {
    "El comprador " + buyer + " marcó interés en la oferta."
  }

  function InterestMessage(buyer: string, offerId: string): string
  {
    "El comprador " + buyer + " marcó interés en tu oferta #" + offerId + "."
  }

  function AcceptOfferDetail(buyer: string): string
  {
    "El comprador " + buyer + " aceptó la oferta."
  }

  function AcceptOfferMessage(buyer: string, offerId: string): string
  {
    "El comprador " + buyer + " aceptó tu oferta #" + offerId + "."
  }

  function RejectOfferDetail(buyer: string): string
  {
    "El comprador " + buyer + " rechazó la oferta."
  }

  function RejectOfferMessage(buyer: string, offerId: string): string
  {
    "El comprador " + buyer + " rechazó tu oferta #" + offerId + "."
  }

  function AcceptCounterDetail(buyer: string): string
  {
    "El productor aceptó la contraoferta de " + buyer + "."
  }

  function AcceptCounterMessage(counterId: string): string
  {
    "El productor aceptó tu contraoferta #" + counterId + "."
  }

  function RejectCounterDetail(buyer: string): string
  {
    "El productor rechazó la contraoferta de " + buyer + "."
  }

  function RejectCounterMessage(counterId: string): string
  {
    "El productor rechazó tu contraoferta #" + counterId + "."
  }

  function DeleteCounterDetail(buyer: string): string
  {
    "El comprador " + buyer + " eliminó su contraoferta."
  }

  function DeleteCounterMessage(buyer: string, counterId: string): string
  {
    "El comprador " + buyer + " eliminó su contraoferta #" + counterId + "."
  }
}
