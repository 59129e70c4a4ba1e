/** The QR payloads of a ticket: the app deep link `<scheme>://ticket/<id>` and the Telegram
    search link offered as a fallback. */
module QrCode {
  import opened Text
  import opened Tickets

  const DefaultScheme: string := "manusapp"

  /** `process.env.EXPO_PUBLIC_SCHEME || 'manusapp'`: an unset or empty variable gives the default. */
  function Scheme(env: Option<string>): (s: string)
    ensures env.Some? && env.value != "" ==> s == env.value
    ensures env.None? || env.value == "" ==> s == DefaultScheme
    ensures s != ""
  {
    if env.Some? && env.value != "" then env.value else DefaultScheme
  }

  /** What precedes the ticket id in a deep link. */
  function LinkPrefix(scheme: string): string {
    scheme + "://ticket/"
  }

  /** The Telegram search link, without and with its scheme. */
  const TelegramSearchPath: string := "t.me/search?q="
  const TelegramSearch: string := "https://" + TelegramSearchPath

  /** `generateTicketQRData`: the deep link for the ticket, under the resolved scheme. */
  function GenerateTicketQRData(t: Ticket, scheme: string): (link: string)
    ensures StartsWith(link, LinkPrefix(scheme))
    ensures link[|LinkPrefix(scheme)|..] == t.id
  {
    LinkPrefix(scheme) + t.id
  }

  /** `generateTelegramFallbackLink`: empty without a group, the search for the ticket id otherwise. */
  function GenerateTelegramFallbackLink(t: Ticket, groupId: Option<string>): (link: string)
    ensures link == "" <==> groupId.None? || groupId.value == ""
    ensures link != "" ==> StartsWith(link, TelegramSearch) && link[|TelegramSearch|..] == t.id
  {
    if groupId.None? || groupId.value == "" then "" else TelegramSearch + t.id
  }

  /** The fallback link does not depend on which group is configured. */
  lemma FallbackIgnoresGroupValue(t: Ticket, g1: string, g2: string)
    requires g1 != "" && g2 != ""
    ensures GenerateTelegramFallbackLink(t, Some(g1)) == GenerateTelegramFallbackLink(t, Some(g2))
  {
  }

  /** `generateQRCodeURL`: computes the fallback but returns the deep link. */
  function GenerateQRCodeURL(t: Ticket, scheme: string, groupId: Option<string>): (url: string)
    ensures url == GenerateTicketQRData(t, scheme)
  {
    var deepLink := GenerateTicketQRData(t, scheme);
    var telegramFallback := GenerateTelegramFallbackLink(t, groupId);
    deepLink
  }

  datatype QRCodeData = QRCodeData(value: string, size: int, fallbackUrl: string)

  /** `generateQRCodeForPrinter`, with the source's default size of 200 and no group by default. */
  function GenerateQRCodeForPrinter(t: Ticket, scheme: string, size: int := 200, groupId: Option<string> := None): (q: QRCodeData)
    ensures q.value == GenerateTicketQRData(t, scheme) && q.size == size
    ensures q.fallbackUrl == GenerateTelegramFallbackLink(t, groupId)
    ensures groupId.None? ==> q.fallbackUrl == ""
  {
    QRCodeData(GenerateTicketQRData(t, scheme), size, GenerateTelegramFallbackLink(t, groupId))
  }
}
