/** The dispatcher: the digest is handed to the mail service only when its
    API key and both addresses are configured. Building and sending the
    message is network I/O; the model records the message that would go out. */
module Mailer {
  import opened Settings

  /** The three environment lookups the dispatcher depends on. */
  datatype MailSettings = MailSettings(apiKey: Option<string>, toEmail: Option<string>, fromEmail: Option<string>)

  /** The message handed to the mail service. */
  datatype Mail = Mail(apiKey: string, fromEmail: string, toEmails: string, subject: string, htmlContent: string)

  /** What the dispatcher does with a digest. */
  datatype Dispatch = Skipped | Attempted(mail: Mail)

  /** The subject line for a date rendered as year-month-day. */
  function Subject(date: string): string
  {
    "今日のニュースサマリー (" + date + ")"
  }

  /** Python's all([SENDGRID_API_KEY, TO_EMAIL, FROM_EMAIL]). */
  predicate Complete(settings: MailSettings)
  {
    Truthy(settings.apiKey) && Truthy(settings.toEmail) && Truthy(settings.fromEmail)
  }

  /** Sends `html` as the body of one message, or skips the send. */
  function SendEmail(settings: MailSettings, date: string, html: string): (d: Dispatch)
    ensures d.Attempted? <==> Complete(settings)
    ensures d.Attempted? ==>
              && d.mail.apiKey == settings.apiKey.value != ""
              && d.mail.toEmails == settings.toEmail.value != ""
              && d.mail.fromEmail == settings.fromEmail.value != ""
              && d.mail.subject == Subject(date)
              && d.mail.htmlContent == html
  {
    if !Complete(settings) then
      Skipped
    else
      Attempted(Mail(settings.apiKey.value, settings.fromEmail.value, settings.toEmail.value, Subject(date), html))
  }

  /** A single unset or empty setting is enough to skip the send, whatever
      the other two hold; this covers all seven incomplete combinations. */
  lemma AnyMissingSkips(settings: MailSettings, date: string, html: string)
    requires settings.apiKey == None || settings.apiKey == Some("")
          || settings.toEmail == None || settings.toEmail == Some("")
          || settings.fromEmail == None || settings.fromEmail == Some("")
    ensures SendEmail(settings, date, html) == Skipped
  {
  }
}
