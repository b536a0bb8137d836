/**
  The email addresses of the authenticated user (lib/GitHub/API/User/Email.php):
  a single address is wrapped into a one-element list before it is sent.
 */
module UserEmails {
  import opened Results
  import opened PhpArrays
  import opened GitHubApi

  /** `is_array($email) ? $email : array($email)`. */
  function AddressList(email: Value): (l: PhpArray)
    requires email.Arr? ==> DistinctKeys(email.entries)
    ensures !email.Arr? ==> l == [(Index(0), email)]
    ensures email.Arr? ==> l == email.entries
  {
    if email.Arr? then email.entries else [(Index(0), email)]
  }

  /** `all`. */
  function All(): (c: Call)
    ensures Sends(c, Get, "user/emails") && c.payload == Query([]) && c.options == []
  {
    RequestGet("user/emails")
  }

  /** `create`: only an empty array of addresses leaves the body null. */
  function Create(email: Value): (c: Call)
    requires email.Arr? ==> DistinctKeys(email.entries)
    ensures c.options == [] && Sends(c, Post, "user/emails")
    ensures c.payload.NoBody? <==> email == Arr([])
    ensures !email.Arr? ==> c.payload == Json([(Index(0), email)])
    ensures email.Arr? && email != Arr([]) ==> c.payload == Json(email.entries)
  {
    RequestPost("user/emails", AddressList(email))
  }

  /** `delete`: the same list, sent with DELETE. */
  function Delete(email: Value): (c: Call)
    requires email.Arr? ==> DistinctKeys(email.entries)
    ensures c.options == [] && Sends(c, Verb.Delete, "user/emails")
    ensures c.payload.NoBody? <==> email == Arr([])
    ensures !email.Arr? ==> c.payload == Json([(Index(0), email)])
    ensures email.Arr? && email != Arr([]) ==> c.payload == Json(email.entries)
  {
    RequestDelete("user/emails", AddressList(email))
  }

  /** Adding and removing the same addresses send the same list to the same URL. */
  lemma CreateAndDeleteAgree(email: Value)
    requires email.Arr? ==> DistinctKeys(email.entries)
    ensures Create(email).url == Delete(email).url && Create(email).payload == Delete(email).payload
  {}

  class Email {
    const transport: Transport

    /** Uses the given transport, or a new one when none is given. */
    constructor (transport: Transport?)
      ensures transport != null ==> this.transport == transport
      ensures transport == null ==> fresh(this.transport)
    {
      if transport == null {
        this.transport := new Transport();
      } else {
        this.transport := transport;
      }
    }
  }
}
