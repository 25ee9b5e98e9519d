/**
 * The notification config builder: a typed notification configuration
 * becomes a notification config message whose payload is one of slack,
 * pagerduty or email, the email payload itself carrying an SMTP or an SES
 * delivery configuration.
 */
module Notification {
  import opened Wrappers
  import opened Diagnostics
  import opened Helpers
  import opened PipelineTypes

  // ----- configuration, as the schema declares it -----

  datatype SlackCfg = SlackCfg(channel: string, botToken: string)

  datatype PagerDutyCfg = PagerDutyCfg(token: string, email: string, serviceId: string, urgency: string)

  /** `port` is the integer the schema hands over, before its conversion to 32 bits. */
  datatype SmtpCfg = SmtpCfg(host: string, port: int, user: string, password: string, useTls: bool)

  datatype SesCfg = SesCfg(sesRegion: string, sesAccessKey: string, sesSecretAccessKey: string)

  datatype EmailCfg = EmailCfg(
    emailType: string,
    recipients: seq<string>,
    fromAddress: string,
    smtp: seq<SmtpCfg>,
    ses: seq<SesCfg>)

  datatype NotificationCfg = NotificationCfg(
    name: string,
    notificationType: string,
    slack: seq<SlackCfg>,
    pagerduty: seq<PagerDutyCfg>,
    email: seq<EmailCfg>)

  // ----- the message -----

  /** A signed 32-bit integer, the width of the message's port field. */
  newtype Int32 = x: int | -0x8000_0000 <= x < 0x8000_0000

  datatype Slack = Slack(channel: string, botToken: string)

  datatype PagerDuty = PagerDuty(token: string, email: string, serviceId: string, urgency: EnumId)

  datatype Smtp = Smtp(host: string, port: Int32, user: string, password: string, useTls: bool)

  datatype Ses = Ses(sesRegion: string, sesAccessKeyId: string, sesSecretAccessKey: string)

  datatype EmailConfig = SmtpConfig(smtp: Smtp) | SesConfig(ses: Ses)

  datatype Email = Email(emailType: EnumId, recipients: seq<string>, fromAddress: string, config: Option<EmailConfig>)

  datatype Config = SlackConfig(slack: Slack) | PagerDutyConfig(pagerduty: PagerDuty) | EmailPayload(email: Email)

  datatype NotificationConfig = NotificationConfig(name: string, notificationType: EnumId, config: Option<Config>)

  /**
   * The three lookups the builder uses. Their definitions are not part of
   * this model; each is taken to be a generated-table lookup like the
   * pipeline ones, with its own prefix and error text.
   */
  datatype NotificationEnums = NotificationEnums(
    typeKind: EnumKind,
    types: Table,
    urgencyKind: EnumKind,
    urgencies: Table,
    emailKind: EnumKind,
    emailTypes: Table)

  const SlackName := "NOTIFICATION_TYPE_SLACK"
  const PagerDutyName := "NOTIFICATION_TYPE_PAGERDUTY"
  const EmailName := "NOTIFICATION_TYPE_EMAIL"
  const SmtpName := "TYPE_SMTP"
  const SesName := "TYPE_SES"

  // The texts of the diagnostics the builder returns.
  const ConvertTypeError := "Error converting notification type: "
  const CreateError := "Error creating notification: "
  const SlackMissing := "Error creating notification: 'slack' configuration is required"
  const PagerDutyMissing := "Error creating notification: 'pagerduty' configuration is required"
  const EmailMissing := "Error creating notification: 'email' configuration is required"
  const SmtpMissing := "Error creating notification: 'smtp' configuration is required"
  const SesMissing := "Error creating notification: 'ses' configuration is required"

  // ----- the port conversion -----

  const TwoTo32: int := 0x1_0000_0000
  const TwoTo31: int := 0x8000_0000

  /** Go's `int32(x)`: keep the low 32 bits and read them as two's complement. */
  function ToInt32(x: int): (r: Int32)
    ensures (r as int - x) % TwoTo32 == 0
  {
    var low := x % TwoTo32;
    if low < TwoTo31 then low as Int32 else (low - TwoTo32) as Int32
  }

  /** A value that fits in 32 bits is kept as it is. */
  lemma ToInt32Fits(x: int)
    requires -TwoTo31 <= x < TwoTo31
    ensures ToInt32(x) as int == x
  {
    if x < 0 {
      assert x % TwoTo32 == x + TwoTo32;
    }
  }

  /** The conversion only sees the value modulo 2^32. */
  lemma ToInt32Periodic(x: int, k: int)
    ensures ToInt32(x + k * TwoTo32) == ToInt32(x)
  {
    assert (x + k * TwoTo32) % TwoTo32 == x % TwoTo32;
  }

  /** A port past 32 bits wraps around: 2^32 + 25 becomes 25, and 2^31 becomes -2^31. */
  lemma PortWrapsAround()
    ensures ToInt32(TwoTo32 + 25) == 25
    ensures ToInt32(TwoTo31) as int == -TwoTo31
  {
    ToInt32Periodic(25, 1);
    ToInt32Fits(25);
  }

  // ----- the builder -----

  /**
   * The email part of buildNotification: the email type lookup, then the
   * SMTP or SES block the type asks for. Another email type leaves the email
   * without a delivery configuration.
   */
  function BuildEmail(cfg: EmailCfg, e: NotificationEnums): Result<Email, seq<Diag>>
  {
    match FromString(e.emailKind, e.emailTypes, cfg.emailType)
    case Err(err) => Err([Errorf(CreateError + err)])
    case Ok(emailType) =>
      var name := e.emailTypes.names[emailType];
      if name == SmtpName then
        if |cfg.smtp| == 0 then Err([Errorf(SmtpMissing)])
        else
          var s := cfg.smtp[0];
          Ok(Email(emailType, cfg.recipients, cfg.fromAddress,
                   Some(SmtpConfig(Smtp(s.host, ToInt32(s.port), s.user, s.password, s.useTls)))))
      else if name == SesName then
        if |cfg.ses| == 0 then Err([Errorf(SesMissing)])
        else
          var s := cfg.ses[0];
          Ok(Email(emailType, cfg.recipients, cfg.fromAddress,
                   Some(SesConfig(Ses(s.sesRegion, s.sesAccessKey, s.sesSecretAccessKey)))))
      else
        Ok(Email(emailType, cfg.recipients, cfg.fromAddress, None))
  }

  /**
   * buildNotification: the type lookup, then the block of the chosen type.
   * A type outside slack, pagerduty and email gives a config with no payload.
   */
  function BuildNotification(c: NotificationCfg, e: NotificationEnums): Result<NotificationConfig, seq<Diag>>
  {
    match FromString(e.typeKind, e.types, c.notificationType)
    case Err(err) => Err([Errorf(ConvertTypeError + err)])
    case Ok(t) =>
      var name := e.types.names[t];
      if name == SlackName then
        if |c.slack| == 0 then Err([Errorf(SlackMissing)])
        else Ok(NotificationConfig(c.name, t, Some(SlackConfig(Slack(c.slack[0].channel, c.slack[0].botToken)))))
      else if name == PagerDutyName then
        if |c.pagerduty| == 0 then Err([Errorf(PagerDutyMissing)])
        else
          var p := c.pagerduty[0];
          match FromString(e.urgencyKind, e.urgencies, p.urgency)
          case Err(err) => Err([Errorf(CreateError + err)])
          case Ok(urgency) => Ok(NotificationConfig(c.name, t, Some(PagerDutyConfig(PagerDuty(p.token, p.email, p.serviceId, urgency)))))
      else if name == EmailName then
        if |c.email| == 0 then Err([Errorf(EmailMissing)])
        else
          match BuildEmail(c.email[0], e)
          case Err(diags) => Err(diags)
          case Ok(email) => Ok(NotificationConfig(c.name, t, Some(EmailPayload(email))))
      else
        Ok(NotificationConfig(c.name, t, None))
  }

  // ----- what the builder promises -----

  /** The name of the type the configuration asks for, when the lookup knows it. */
  function TypeName(c: NotificationCfg, e: NotificationEnums): Option<string>
  {
    match FromString(e.typeKind, e.types, c.notificationType)
    case Err(_) => None
    case Ok(t) => Some(e.types.names[t])
  }

  /** An unknown type is the only error reported before the blocks are read, and then nothing is built. */
  lemma UnknownTypeFails(c: NotificationCfg, e: NotificationEnums)
    requires FromString(e.typeKind, e.types, c.notificationType).Err?
    ensures BuildNotification(c, e) == Err([Errorf(ConvertTypeError + e.typeKind.invalid)])
  {
  }

  /**
   * On success the config carries the configured name and the looked-up
   * type, and a payload, when there is one, of the variant the type names.
   */
  lemma BuiltConfigMatchesType(c: NotificationCfg, e: NotificationEnums)
    requires BuildNotification(c, e).Ok?
    ensures var n := BuildNotification(c, e).value;
            && FromString(e.typeKind, e.types, c.notificationType) == Ok(n.notificationType)
            && n.name == c.name
            && (n.config.None? <==> TypeName(c, e).value !in {SlackName, PagerDutyName, EmailName})
            && (n.config.Some? ==>
                  && (n.config.value.SlackConfig? <==> TypeName(c, e) == Some(SlackName))
                  && (n.config.value.PagerDutyConfig? <==> TypeName(c, e) == Some(PagerDutyName))
                  && (n.config.value.EmailPayload? <==> TypeName(c, e) == Some(EmailName)))
  {
    var name := e.types.names[FromString(e.typeKind, e.types, c.notificationType).value];
    assert TypeName(c, e) == Some(name);
    if name == SlackName {
    } else if name == PagerDutyName {
    } else if name == EmailName {
    } else {
      assert BuildNotification(c, e).value.config == None;
    }
  }

  /** Each of the three payload types needs its own non-empty block, and the error names it. */
  lemma MissingBlockFails(c: NotificationCfg, e: NotificationEnums)
    ensures TypeName(c, e) == Some(SlackName) && |c.slack| == 0 ==> BuildNotification(c, e) == Err([Errorf(SlackMissing)])
    ensures TypeName(c, e) == Some(PagerDutyName) && |c.pagerduty| == 0 ==> BuildNotification(c, e) == Err([Errorf(PagerDutyMissing)])
    ensures TypeName(c, e) == Some(EmailName) && |c.email| == 0 ==> BuildNotification(c, e) == Err([Errorf(EmailMissing)])
  {
  }

  /** A slack block's channel and bot token are copied unchanged. */
  lemma SlackIsCopied(c: NotificationCfg, e: NotificationEnums)
    requires TypeName(c, e) == Some(SlackName) && |c.slack| > 0
    ensures BuildNotification(c, e).Ok?
    ensures BuildNotification(c, e).value.config == Some(SlackConfig(Slack(c.slack[0].channel, c.slack[0].botToken)))
  {
  }

  /**
   * A pagerduty block succeeds exactly when its urgency is known; the
   * urgency is the looked-up id and the other fields are copied.
   */
  lemma PagerDutyUrgency(c: NotificationCfg, e: NotificationEnums)
    requires TypeName(c, e) == Some(PagerDutyName) && |c.pagerduty| > 0
    ensures BuildNotification(c, e).Ok? <==> FromString(e.urgencyKind, e.urgencies, c.pagerduty[0].urgency).Ok?
    ensures BuildNotification(c, e).Err? ==>
              BuildNotification(c, e) == Err([Errorf(CreateError + e.urgencyKind.invalid)])
    ensures var p := c.pagerduty[0];
            BuildNotification(c, e).Ok? ==>
              BuildNotification(c, e).value.config
              == Some(PagerDutyConfig(PagerDuty(p.token, p.email, p.serviceId, FromString(e.urgencyKind, e.urgencies, p.urgency).value)))
  {
  }

  /**
   * An email payload: the email type must be known, an SMTP type needs an
   * smtp block and an SES type a ses block; recipients and sender are
   * copied, and another email type leaves the delivery configuration unset.
   */
  lemma EmailDelivery(cfg: EmailCfg, e: NotificationEnums)
    ensures var r := FromString(e.emailKind, e.emailTypes, cfg.emailType);
            BuildEmail(cfg, e).Err? <==>
              || r.Err?
              || (e.emailTypes.names[r.value] == SmtpName && |cfg.smtp| == 0)
              || (e.emailTypes.names[r.value] == SesName && |cfg.ses| == 0)
    ensures FromString(e.emailKind, e.emailTypes, cfg.emailType).Err? ==>
              BuildEmail(cfg, e) == Err([Errorf(CreateError + e.emailKind.invalid)])
    ensures var r := FromString(e.emailKind, e.emailTypes, cfg.emailType);
            r.Ok? ==>
              && (e.emailTypes.names[r.value] == SmtpName && |cfg.smtp| == 0 ==> BuildEmail(cfg, e) == Err([Errorf(SmtpMissing)]))
              && (e.emailTypes.names[r.value] == SesName && |cfg.ses| == 0 ==> BuildEmail(cfg, e) == Err([Errorf(SesMissing)]))
    ensures BuildEmail(cfg, e).Ok? ==>
              var m := BuildEmail(cfg, e).value;
              && FromString(e.emailKind, e.emailTypes, cfg.emailType) == Ok(m.emailType)
              && m.recipients == cfg.recipients && m.fromAddress == cfg.fromAddress
              && (m.config.None? <==> e.emailTypes.names[m.emailType] !in {SmtpName, SesName})
              && (m.config.Some? && m.config.value.SmtpConfig? <==> e.emailTypes.names[m.emailType] == SmtpName)
  {
  }

  /**
   * The SMTP delivery is the first smtp block: host, user, password and TLS
   * flag copied, the port converted to 32 bits, so a port that fits is kept.
   */
  lemma SmtpPort(cfg: EmailCfg, e: NotificationEnums)
    requires BuildEmail(cfg, e).Ok?
    requires BuildEmail(cfg, e).value.config.Some? && BuildEmail(cfg, e).value.config.value.SmtpConfig?
    ensures |cfg.smtp| > 0
    ensures var m := BuildEmail(cfg, e).value.config.value.smtp;
            && m.host == cfg.smtp[0].host && m.user == cfg.smtp[0].user
            && m.password == cfg.smtp[0].password && m.useTls == cfg.smtp[0].useTls
    ensures BuildEmail(cfg, e).value.config.value.smtp.port == ToInt32(cfg.smtp[0].port)
    ensures 0 <= cfg.smtp[0].port < TwoTo31 ==> BuildEmail(cfg, e).value.config.value.smtp.port as int == cfg.smtp[0].port
  {
    if 0 <= cfg.smtp[0].port < TwoTo31 {
      ToInt32Fits(cfg.smtp[0].port);
    }
  }

  /** The SES delivery is the first ses block, with its region and both keys copied. */
  lemma SesIsCopied(cfg: EmailCfg, e: NotificationEnums)
    requires BuildEmail(cfg, e).Ok?
    requires BuildEmail(cfg, e).value.config.Some? && BuildEmail(cfg, e).value.config.value.SesConfig?
    ensures |cfg.ses| > 0
    ensures e.emailTypes.names[BuildEmail(cfg, e).value.emailType] == SesName
    ensures BuildEmail(cfg, e).value.config.value.ses
         == Ses(cfg.ses[0].sesRegion, cfg.ses[0].sesAccessKey, cfg.ses[0].sesSecretAccessKey)
  {
  }

  /** An email type other than SMTP and SES builds an email with no delivery configuration, and no error. */
  lemma OtherEmailTypeHasNoDelivery(cfg: EmailCfg, e: NotificationEnums)
    requires FromString(e.emailKind, e.emailTypes, cfg.emailType).Ok?
    requires e.emailTypes.names[FromString(e.emailKind, e.emailTypes, cfg.emailType).value] !in {SmtpName, SesName}
    ensures BuildEmail(cfg, e)
         == Ok(Email(FromString(e.emailKind, e.emailTypes, cfg.emailType).value, cfg.recipients, cfg.fromAddress, None))
  {
  }

  /**
   * When a notification is built: its type must be known, and the slack,
   * pagerduty and email types need their own block, pagerduty a known
   * urgency and email a buildable first email block. Any other known type
   * succeeds.
   */
  lemma NotificationSucceedsIff(c: NotificationCfg, e: NotificationEnums)
    ensures BuildNotification(c, e).Ok? <==>
              && TypeName(c, e).Some?
              && (TypeName(c, e) == Some(SlackName) ==> |c.slack| > 0)
              && (TypeName(c, e) == Some(PagerDutyName) ==>
                    |c.pagerduty| > 0 && FromString(e.urgencyKind, e.urgencies, c.pagerduty[0].urgency).Ok?)
              && (TypeName(c, e) == Some(EmailName) ==> |c.email| > 0 && BuildEmail(c.email[0], e).Ok?)
  {
    if TypeName(c, e).Some? {
      var name := TypeName(c, e).value;
      if name == SlackName {
      } else if name == PagerDutyName {
      } else if name == EmailName {
      } else {
        assert BuildNotification(c, e).Ok?;
      }
    }
  }

  /** A known type outside slack, pagerduty and email gives a config with no payload, and no error. */
  lemma OtherTypeHasNoPayload(c: NotificationCfg, e: NotificationEnums)
    requires TypeName(c, e).Some? && TypeName(c, e).value !in {SlackName, PagerDutyName, EmailName}
    ensures BuildNotification(c, e)
         == Ok(NotificationConfig(c.name, FromString(e.typeKind, e.types, c.notificationType).value, None))
  {
  }

  /** The email payload of a notification is the one BuildEmail makes from the first email block. */
  lemma EmailIsBuiltFromFirstBlock(c: NotificationCfg, e: NotificationEnums)
    requires TypeName(c, e) == Some(EmailName) && |c.email| > 0
    ensures BuildEmail(c.email[0], e).Err? ==> BuildNotification(c, e) == Err(BuildEmail(c.email[0], e).error)
    ensures BuildEmail(c.email[0], e).Ok? ==>
              BuildNotification(c, e).Ok? && BuildNotification(c, e).value.config == Some(EmailPayload(BuildEmail(c.email[0], e).value))
  {
  }
}
