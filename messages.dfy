/** The user-facing messages that the server action and the Mailchimp route
    both return. */
module Messages {
  const TooManyRequests := "Too many requests. Please try again in a minute."
  const InvalidEmail := "Please enter a valid email address."
  const DevModeSuccess := "Subscribed successfully (dev mode)"
  const NotConfigured := "Email subscription is not configured. Please try again later."
  const Joined := "Thanks for joining the waitlist!"
  const AlreadyListed := "You're already on the waitlist!"
  const Unavailable := "Unable to subscribe. Please try again later."
}
