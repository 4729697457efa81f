/**
 * Outbound email. The sender is configured only when both `RESEND_TOKEN` and `RESEND_FROM` are
 * set; a send may fail, and every caller swallows the failure, so the model records each attempt
 * and nothing depends on its outcome.
 */
module Mail {
  import opened Types

  datatype Env = Env(resendToken: Option<string>, resendFrom: Option<string>, appUrl: Option<string>)

  predicate MailConfigured(env: Env)
  {
    Present(env.resendToken) && Present(env.resendFrom)
  }

  /** `env.NEXT_PUBLIC_APP_URL || "https://afterly.com"`. */
  function BaseUrl(env: Env): string
  {
    if Present(env.appUrl) then env.appUrl.value else "https://afterly.com"
  }

  datatype Message =
    | DeathNotification(to: string, contactName: string, deceasedName: string, accessLink: string)
    | InvitationMessage(to: string, recipientName: Option<string>, signUpUrl: string)

  class Mailer {
    /** Every send attempted, whether or not it was delivered. */
    var sent: seq<Message>

    constructor ()
      ensures sent == []
    {
      sent := [];
    }

    /** `resend.emails.send`: the delivery outcome is outside the model. */
    method Send(m: Message) returns (delivered: bool)
      modifies this
      ensures sent == old(sent) + [m]
    {
      sent := sent + [m];
      delivered := *;
    }
  }
}
