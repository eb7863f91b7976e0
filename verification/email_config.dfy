/** The SMTP server settings bound from application configuration. */
module EmailConfiguration {
  import opened CSharp

  /** One `EmailConfig`. The strings are non-nullable and the port is an `int`. */
  datatype EmailConfig = EmailConfig(
    server: string,
    port: int32,
    userName: string,
    password: string,
    useSsl: bool,
    targetName: string,
    fromName: string,
    fromAddress: string,
    replyToAddress: string)

  /** A freshly constructed `EmailConfig`, before any setting is bound. */
  function DefaultConfig(): EmailConfig
  {
    EmailConfig(
      server := "",
      port := 25,
      userName := "",
      password := "",
      useSsl := true,
      targetName := "",
      fromName := "",
      fromAddress := "",
      replyToAddress := "")
  }
}
