/** The records the application passes around: analysis results and their
    scene segments, the uploaded video, the screen state, and the subscription
    vocabulary shared by the plan table, the handlers and the components. */
module Types {
  import opened Js

  /** One keyframe the analysis asks for; `screenshotUrl` is filled in by the
      frame capture. */
  datatype SceneSegment = SceneSegment(
    timestamp: string,
    timestampSeconds: real,
    description: string,
    prompt: string,
    screenshotUrl: Option<string>)

  datatype Details = Details(subject: string, action: string, camera: string, lighting: string, style: string)

  datatype AnalysisResult = AnalysisResult(prompt: string, details: Details, segments: seq<SceneSegment>)

  /** The browser `File` fields the uploader reads. */
  datatype File = File(name: string, mimeType: string, size: int)

  datatype VideoData = VideoData(file: File, previewUrl: string, base64Data: Option<string>, mimeType: string)

  datatype AppState = IDLE | PREVIEW | ANALYZING | SUCCESS | ERROR

  datatype SubscriptionTier = FREE_TRIAL | BASIC | PREMIUM

  datatype BillingCycle = MONTHLY | YEARLY

  /** One entry of the plan table; `price` is in paise. */
  datatype SubscriptionPlan = SubscriptionPlan(
    id: string,
    tier: SubscriptionTier,
    billingCycle: BillingCycle,
    name: string,
    description: string,
    price: int,
    priceDisplay: string,
    features: seq<string>,
    videoLimit: int,
    sceneLimit: int,
    supportLevel: string,
    apiAccess: bool)

  /** A user's subscription as the status panel and the plan cards read it;
      `status` is the database's status text ('active', 'on_trial', ...). */
  datatype SubscriptionStatus = SubscriptionStatus(
    tier: SubscriptionTier,
    status: string,
    daysRemaining: int,
    videosUsedThisMonth: int,
    videoLimit: int,
    nextBillingDate: Option<string>)
}
