/** The entities of the conference model that the data layer handles. */
module DevoxxModel {
  import opened Wrappers

  /** The talk a session refers to; its id is the session's uuid for the backend. */
  datatype Talk = Talk(id: string)

  /**
   * A scheduled session. Its start and end instants, derived from epoch millis
   * and the conference time zone, are not part of this model.
   */
  datatype Session = Session(talk: Option<Talk>, title: string)

  datatype SessionType = SessionType(name: string, pause: bool)

  datatype Track = Track(name: string)

  /** A floor plan of the venue. */
  datatype Floor = Floor(name: string, imageUrl: string)

  /** The number of users who favored the session with this id. */
  datatype Favorite = Favorite(id: string, favs: int)

  /** The texts offered for one vote value. */
  datatype Rating<D> = Rating(rating: int, data: seq<D>)

  /**
   * A conference as fetched from the backend. `hasFavoriteCount`, `hasFavorite`
   * and `myBadgeActive` stand for the feature checks made on it
   * (`conferenceHasFavoriteCount`, `conferenceHasFavorite`, `isMyBadgeActive`).
   */
  datatype Conference = Conference(
    id: string,
    cfpUrl: Option<string>,
    cfpVersion: string,
    hasFavoriteCount: bool,
    hasFavorite: bool,
    myBadgeActive: bool,
    tracks: Option<seq<Track>>,
    sessionTypes: Option<seq<SessionType>>,
    floorPlans: seq<Floor>)

  /** How a user logged in: with the application's own (custom) login or through a network. */
  datatype LoginMethod = Custom | Network(methodName: string)

  /** `getLoginMethod().name()` */
  function LoginMethodName(m: LoginMethod): string {
    match m
    case Custom => "CUSTOM"
    case Network(n) => n
  }

  /** An authenticated user of the cloud login service. */
  datatype User = User(key: string, networkId: string, loginMethod: LoginMethod, email: Option<string>)

  /** The detail fields of a speaker, filled by a separate per-speaker fetch. */
  datatype SpeakerDetails = SpeakerDetails(
    acceptedTalks: Option<seq<string>>,
    avatarUrl: Option<string>,
    bio: Option<string>,
    bioAsHtml: Option<string>,
    blog: Option<string>,
    company: Option<string>,
    firstName: Option<string>,
    lang: Option<string>,
    lastName: Option<string>,
    twitter: Option<string>)

  /** A speaker as returned by the per-speaker fetch. */
  datatype SpeakerRecord = SpeakerRecord(uuid: string, details: SpeakerDetails)

  /** A speaker object of the speakers list; the views bind to it, so its fields are updated in place. */
  class Speaker {
    const uuid: string
    var details: SpeakerDetails
    var detailsRetrieved: bool

    constructor (uuid: string, summary: SpeakerDetails)
      ensures this.uuid == uuid && details == summary && !detailsRetrieved
    {
      this.uuid := uuid;
      details := summary;
      detailsRetrieved := false;
    }
  }
}
