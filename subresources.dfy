/**
  The resource objects that the memoising accessors create and that have no
  decision logic of their own: each holds the transport it was created with.
 */
module SubResources {
  import opened GitHubApi

  /** `GitHub\API\Repo\Commit`. */
  class Commit {
    const transport: Transport
    constructor (transport: Transport)
      ensures this.transport == transport
    {
      this.transport := transport;
    }
  }

  /** `GitHub\API\Repo\Collaborator`. */
  class Collaborator {
    const transport: Transport
    constructor (transport: Transport)
      ensures this.transport == transport
    {
      this.transport := transport;
    }
  }

  /** `GitHub\API\Repo\Download`. */
  class Download {
    const transport: Transport
    constructor (transport: Transport)
      ensures this.transport == transport
    {
      this.transport := transport;
    }
  }

  /** `GitHub\API\Repo\Fork`. */
  class Fork {
    const transport: Transport
    constructor (transport: Transport)
      ensures this.transport == transport
    {
      this.transport := transport;
    }
  }

  /** `GitHub\API\Repo\Key`, the deploy keys of a repository. */
  class RepoKey {
    const transport: Transport
    constructor (transport: Transport)
      ensures this.transport == transport
    {
      this.transport := transport;
    }
  }

  /** `GitHub\API\Repo\Event`. */
  class RepoEvent {
    const transport: Transport
    constructor (transport: Transport)
      ensures this.transport == transport
    {
      this.transport := transport;
    }
  }

  /** `GitHub\API\Gist\Comment`. */
  class GistComment {
    const transport: Transport
    constructor (transport: Transport)
      ensures this.transport == transport
    {
      this.transport := transport;
    }
  }

  /** `GitHub\API\User\Key`, the public keys of the authenticated user. */
  class UserKey {
    const transport: Transport
    constructor (transport: Transport)
      ensures this.transport == transport
    {
      this.transport := transport;
    }
  }

  /** `GitHub\API\User\Issue`. */
  class UserIssue {
    const transport: Transport
    constructor (transport: Transport)
      ensures this.transport == transport
    {
      this.transport := transport;
    }
  }
}
