/** Deployment settings the core reads: the project's settings module and the
    URL router. They are fixed for a run, so the model takes them as values. */
module Config {

  datatype Settings = Settings(
    domain: string,               // settings.DOMAIN
    confirmUrl: string,           // reverse('api:confirm_notification')
    caregiverOneWaitTime: int     // settings.CAREGIVER_ONE_WAIT_TIME
  )
}
